/**
 Token budgeting for the assistant: grouping history into turns, keeping the newest turns
 that fit, and how far the per-turn and per-request estimates can drift apart.

 Only lengths matter to the estimates, so the JSON text of a list of tool calls is given by
 an arbitrary length function.
 */
module ContextBudget {
  import opened Wrappers

  const SAFETY_OVERHEAD := 500
  const TOOL_RESULT_MAX_CHARS := 4000
  const TRUNCATED := "... (truncated)"
  const HISTORY_LIMIT := 20
  const QUESTION_LIMIT := 2000
  const EMPTY_LIST := 2 // the length of "[]"

  datatype Role = System | User | Assistant | Tool

  datatype Call = Call(id: string, name: string, arguments: string)

  datatype Message = Message(role: Role, content: string, calls: Option<seq<Call>>, callId: Option<string>)

  type Turn = seq<Message>

  /** Deployment limits, the estimate of the tool definitions, and JSON.stringify(toolCalls). */
  datatype Config = Config(contextMax: int, maxTokens: int, toolsTokens: nat, jsonLength: seq<Call> -> nat)

  /** Math.ceil((length / 4) * 1.2) */
  function Tokens(length: nat): nat {
    (3 * length + 9) / 10
  }

  /** What a message costs inside a provider request: two roundings. */
  function MessageTokens(c: Config, m: Message): nat {
    Tokens(|m.content|) + if m.calls.Some? then Tokens(c.jsonLength(m.calls.value)) else 0
  }

  /** What a message costs when its turn is weighed: one rounding, and [] for no calls. */
  function HistoryTokens(c: Config, m: Message): nat {
    Tokens(|m.content| + if m.calls.Some? then c.jsonLength(m.calls.value) else EMPTY_LIST)
  }

  function MessagesTokens(c: Config, messages: seq<Message>): nat {
    if messages == [] then 0
    else MessagesTokens(c, messages[..|messages| - 1]) + MessageTokens(c, messages[|messages| - 1])
  }

  function TurnTokens(c: Config, turn: Turn): nat {
    if turn == [] then 0 else TurnTokens(c, turn[..|turn| - 1]) + HistoryTokens(c, turn[|turn| - 1])
  }

  function RequestTokens(c: Config, messages: seq<Message>, toolsTokens: nat): int {
    MessagesTokens(c, messages) + toolsTokens + c.maxTokens + SAFETY_OVERHEAD
  }

  // ---------------------------------------------------------------------------------
  // Grouping
  // ---------------------------------------------------------------------------------

  function Flatten(turns: seq<Turn>): seq<Message> {
    if turns == [] then [] else Flatten(turns[..|turns| - 1]) + turns[|turns| - 1]
  }

  /** A partition cut exactly in front of the user messages. */
  predicate IsGrouping(turns: seq<Turn>, messages: seq<Message>) {
    && Flatten(turns) == messages
    && (forall i | 0 <= i < |turns| ::
          turns[i] != [] && forall k | 0 < k < |turns[i]| :: !turns[i][k].role.User?)
    && (forall i | 0 < i < |turns| :: turns[i] != [] && turns[i][0].role.User?)
  }

  lemma GroupingStartsTurn(turns: seq<Turn>, messages: seq<Message>, msg: Message)
    requires IsGrouping(turns, messages) && msg.role.User?
    ensures IsGrouping(turns + [[msg]], messages + [msg])
  {
    FlattenLast(turns, [msg]);
  }

  lemma GroupingExtendsTurn(turns: seq<Turn>, turn: Turn, messages: seq<Message>, msg: Message)
    requires IsGrouping(turns + [turn], messages) && !msg.role.User?
    ensures IsGrouping(turns + [turn + [msg]], messages + [msg])
  {
    FlattenLast(turns, turn);
    FlattenLast(turns, turn + [msg]);
    var longer: seq<Turn> := turns + [turn + [msg]];
    assert (turns + [turn])[|turns|] == turn;
    forall i | 0 <= i < |longer|
      ensures longer[i] != [] && (i > 0 ==> longer[i][0].role.User?)
      ensures forall k | 0 < k < |longer[i]| :: !longer[i][k].role.User?
    {
      assert (turns + [turn])[i] == if i < |turns| then longer[i] else turn;
    }
  }

  /** The loop's state: closed turns and the current one group what has been read. */
  predicate Grouped(turns: seq<Turn>, current: Turn, messages: seq<Message>) {
    if current == [] then turns == [] && messages == [] else IsGrouping(turns + [current], messages)
  }

  lemma GroupedUser(turns: seq<Turn>, current: Turn, messages: seq<Message>, msg: Message)
    requires Grouped(turns, current, messages) && msg.role.User?
    ensures Grouped(if |current| > 0 then turns + [current] else turns, [msg], messages + [msg])
  {
    if current == [] {
      FlattenLast([], [msg]);
    } else {
      GroupingStartsTurn(turns + [current], messages, msg);
    }
  }

  lemma GroupedOther(turns: seq<Turn>, current: Turn, messages: seq<Message>, msg: Message)
    requires Grouped(turns, current, messages) && !msg.role.User?
    ensures IsGrouping(turns + [current + [msg]], messages + [msg])
  {
    if current == [] {
      FlattenLast([], [msg]);
      assert current + [msg] == [msg] && messages + [msg] == [msg];
    } else {
      GroupingExtendsTurn(turns, current, messages, msg);
    }
  }

  method GroupIntoTurns(messages: seq<Message>) returns (turns: seq<Turn>)
    ensures IsGrouping(turns, messages)
  {
    turns := [];
    var currentTurn: Turn := [];
    for i := 0 to |messages|
      invariant Grouped(turns, currentTurn, messages[..i])
    {
      var msg := messages[i];
      assert messages[..i + 1] == messages[..i] + [msg];
      if msg.role.User? {
        GroupedUser(turns, currentTurn, messages[..i], msg);
        if |currentTurn| > 0 {
          turns := turns + [currentTurn];
        }
        currentTurn := [msg];
      } else {
        GroupedOther(turns, currentTurn, messages[..i], msg);
        currentTurn := currentTurn + [msg];
      }
    }
    assert messages[..|messages|] == messages;
    if |currentTurn| > 0 {
      turns := turns + [currentTurn];
    }
  }

  lemma FlattenLast(turns: seq<Turn>, turn: Turn)
    ensures Flatten(turns + [turn]) == Flatten(turns) + turn
  {
    assert (turns + [turn])[..|turns|] == turns;
  }

  lemma {:induction false} FlattenConcat(a: seq<Turn>, b: seq<Turn>)
    ensures Flatten(a + b) == Flatten(a) + Flatten(b)
  {
    if b == [] {
      assert a + b == a;
    } else {
      var n := |b| - 1;
      FlattenConcat(a, b[..n]);
      assert (a + b)[..|a| + n] == a + b[..n];
      assert Flatten(a + b[..n]) + b[n] == Flatten(a) + (Flatten(b[..n]) + b[n]);
    }
  }

  lemma GroupingPrefix(turns: seq<Turn>, messages: seq<Message>)
    requires IsGrouping(turns, messages) && turns != []
    ensures var n := |turns| - 1;
            && messages == Flatten(turns[..n]) + turns[n]
            && IsGrouping(turns[..n], messages[..|messages| - |turns[n]|])
  {
    var n := |turns| - 1;
    assert messages[..|messages| - |turns[n]|] == Flatten(turns[..n]);
  }

  lemma SuffixHead(x: seq<Message>, y: seq<Message>, messages: seq<Message>)
    requires |x| <= |messages| && x == messages[|messages| - |x|..]
    requires |y| <= |messages| && y == messages[|messages| - |y|..]
    ensures 0 < |y| < |x| ==> x[|x| - |y|] == y[0]
  {
  }

  /** If one last turn were longer, it would hold a user message past its head. */
  lemma LastTurnNotLonger(a: seq<Turn>, b: seq<Turn>, messages: seq<Message>)
    requires IsGrouping(a, messages) && IsGrouping(b, messages) && a != [] && b != []
    ensures |a[|a| - 1]| <= |b[|b| - 1]|
  {
    GroupingPrefix(a, messages);
    GroupingPrefix(b, messages);
    var x, y := a[|a| - 1], b[|b| - 1];
    assert x == messages[|messages| - |x|..] && y == messages[|messages| - |y|..];
    if |b| == 1 {
      assert Flatten(b[..0]) == [];
    } else {
      SuffixHead(x, y, messages);
    }
  }

  /** The grouping is the only one there is. */
  lemma {:induction false} GroupingUnique(a: seq<Turn>, b: seq<Turn>, messages: seq<Message>)
    requires IsGrouping(a, messages) && IsGrouping(b, messages)
    ensures a == b
  {
    if a != [] {
      GroupingPrefix(a, messages);
    }
    if b != [] {
      GroupingPrefix(b, messages);
    }
    if a != [] && b != [] {
      LastTurnNotLonger(a, b, messages);
      LastTurnNotLonger(b, a, messages);
      var m, n := |a| - 1, |b| - 1;
      var k := |messages| - |a[m]|;
      assert a[m] == messages[k..] && b[n] == messages[k..];
      GroupingUnique(a[..m], b[..n], messages[..k]);
      assert a == a[..m] + [a[m]] && b == b[..n] + [b[n]];
    }
  }

  // ---------------------------------------------------------------------------------
  // Selection
  // ---------------------------------------------------------------------------------

  function TurnsTokens(c: Config, turns: seq<Turn>): nat {
    if turns == [] then 0 else TurnTokens(c, turns[0]) + TurnsTokens(c, turns[1..])
  }

  /** Keeping from this turn on fits, and keeping any more does not. */
  predicate LongestFit(c: Config, turns: seq<Turn>, budget: int, from: nat) {
    && from <= |turns|
    && (from < |turns| ==> TurnsTokens(c, turns[from..]) <= budget)
    && (forall j | 0 <= j < from :: TurnsTokens(c, turns[j..]) > budget)
  }

  lemma {:induction false} LongerCostsMore(c: Config, turns: seq<Turn>, j: nat, from: nat)
    requires j <= from <= |turns|
    ensures TurnsTokens(c, turns[j..]) >= TurnsTokens(c, turns[from..])
    decreases from - j
  {
    if j < from {
      LongerCostsMore(c, turns, j + 1, from);
      assert turns[j..][1..] == turns[j + 1..];
    }
  }

  /** Newest first, stopping at the first turn that does not fit. */
  method SelectTurns(c: Config, turns: seq<Turn>, budget: int) returns (selected: seq<Turn>)
    ensures |selected| <= |turns| && selected == turns[|turns| - |selected|..]
    ensures LongestFit(c, turns, budget, |turns| - |selected|)
  {
    selected := [];
    var remaining := budget;
    var i := |turns|;
    while i > 0
      invariant 0 <= i <= |turns| && selected == turns[i..]
      invariant remaining == budget - TurnsTokens(c, turns[i..])
      invariant i < |turns| ==> remaining >= 0
    {
      var turn := turns[i - 1];
      assert turns[i - 1..][1..] == turns[i..];
      var turnTokens := 0;
      for k := 0 to |turn|
        invariant turnTokens == TurnTokens(c, turn[..k])
      {
        assert turn[..k + 1][..k] == turn[..k];
        turnTokens := turnTokens + HistoryTokens(c, turn[k]);
      }
      assert turn[..|turn|] == turn;
      if turnTokens <= remaining {
        selected := [turn] + selected;
        remaining := remaining - turnTokens;
        i := i - 1;
      } else {
        forall j | 0 <= j < i
          ensures TurnsTokens(c, turns[j..]) > budget
        {
          LongerCostsMore(c, turns, j, i - 1);
        }
        return;
      }
    }
  }

  // ---------------------------------------------------------------------------------
  // The first request
  // ---------------------------------------------------------------------------------

  function HistoryBudget(c: Config, system: string, user: string): int {
    c.contextMax - c.maxTokens - SAFETY_OVERHEAD - Tokens(|system|) - c.toolsTokens - Tokens(|user|)
  }

  function MinimumRequest(c: Config, system: string, user: string): int {
    Tokens(|system|) + Tokens(|user|) + c.toolsTokens + c.maxTokens + SAFETY_OVERHEAD
  }

  /** How many messages carry a list of tool calls, empty or not. */
  function CallCarriers(messages: seq<Message>): nat {
    if messages == [] then 0
    else CallCarriers(messages[..|messages| - 1]) + if messages[|messages| - 1].calls.Some? then 1 else 0
  }

  function WithUser(history: seq<Message>, user: string): seq<Message> {
    if history != [] && history[|history| - 1].role.User? && history[|history| - 1].content == user then history
    else history + [Message(User, user, None, None)]
  }

  function FirstRequest(system: string, user: string, history: seq<Message>): seq<Message> {
    [Message(System, system, None, None)] + WithUser(history, user)
  }

  predicate EndsAsking(messages: seq<Message>, user: string) {
    messages != [] && messages[|messages| - 1].role.User? && messages[|messages| - 1].content == user
  }

  /** The system prompt, then this history, and the question last, put there once: added only
      where the history does not end with it. */
  predicate Opens(messages: seq<Message>, system: string, user: string, kept: seq<Message>) {
    && |messages| > 0 && messages[0] == Message(System, system, None, None)
    && EndsAsking(messages, user)
    && |messages| == 1 + |kept| + (if EndsAsking(kept, user) then 0 else 1)
    && messages[1..1 + |kept|] == kept
  }

  lemma FirstRequestOpens(system: string, user: string, kept: seq<Message>)
    ensures Opens(FirstRequest(system, user, kept), system, user, kept)
  {
  }

  lemma RoundingDrift(a: nat, b: nat)
    ensures Tokens(a + b) <= Tokens(a) + Tokens(b) <= Tokens(a + b) + 1
  {
  }

  /** By how much the request's estimate of some messages exceeds the one they were selected
      by.  Without calls it can only be lower. */
  function Drift(c: Config, messages: seq<Message>): int {
    if messages == [] then 0
    else
      var last := messages[|messages| - 1];
      Drift(c, messages[..|messages| - 1]) + MessageTokens(c, last) - HistoryTokens(c, last)
  }

  lemma {:induction false} DriftExact(c: Config, turn: Turn)
    ensures MessagesTokens(c, turn) == TurnTokens(c, turn) + Drift(c, turn)
  {
    if turn != [] {
      DriftExact(c, turn[..|turn| - 1]);
    }
  }

  lemma {:induction false} DriftBound(c: Config, messages: seq<Message>)
    ensures Drift(c, messages) <= CallCarriers(messages)
  {
    if messages != [] {
      var last := messages[|messages| - 1];
      DriftBound(c, messages[..|messages| - 1]);
      RoundingDrift(|last.content|, if last.calls.Some? then c.jsonLength(last.calls.value) else EMPTY_LIST);
    }
  }

  lemma {:induction false} MessagesConcat(c: Config, a: seq<Message>, b: seq<Message>)
    ensures MessagesTokens(c, a + b) == MessagesTokens(c, a) + MessagesTokens(c, b)
    ensures TurnTokens(c, a + b) == TurnTokens(c, a) + TurnTokens(c, b)
    ensures Drift(c, a + b) == Drift(c, a) + Drift(c, b)
    ensures CallCarriers(a + b) == CallCarriers(a) + CallCarriers(b)
  {
    if b == [] {
      assert a + b == a;
    } else {
      MessagesConcat(c, a, b[..|b| - 1]);
      assert (a + b)[..|a + b| - 1] == a + b[..|b| - 1];
    }
  }

  /** Turns cost what their messages cost. */
  lemma {:induction false} TurnsCost(c: Config, turns: seq<Turn>)
    ensures TurnsTokens(c, turns) == TurnTokens(c, Flatten(turns))
  {
    if turns != [] {
      TurnsCost(c, turns[1..]);
      FlattenConcat([turns[0]], turns[1..]);
      assert turns == [turns[0]] + turns[1..] && [turns[0]][..0] == [];
      assert Flatten([turns[0]]) == [] + turns[0] == turns[0];
      MessagesConcat(c, turns[0], Flatten(turns[1..]));
    }
  }

  /** The reservation for the user message that is not needed when the history ends with it. */
  function Twice(history: seq<Message>, user: string): nat {
    if WithUser(history, user) == history then Tokens(|user|) else 0
  }

  /** The first request to the token. */
  lemma FirstRequestExact(c: Config, system: string, user: string, kept: seq<Message>)
    ensures RequestTokens(c, FirstRequest(system, user, kept), c.toolsTokens)
         == MinimumRequest(c, system, user) + TurnTokens(c, kept) + Drift(c, kept) - Twice(kept, user)
  {
    var first := Message(System, system, None, None);
    MessagesConcat(c, [first], WithUser(kept, user));
    assert MessagesTokens(c, [first]) == Tokens(|system|) by {
      assert [first][..0] == [];
    }
    var last := Message(User, user, None, None);
    MessagesConcat(c, kept, [last]);
    assert MessagesTokens(c, [last]) == Tokens(|user|) by {
      assert [last][..0] == [];
    }
    DriftExact(c, kept);
  }

  /** Calls of an assistant message that no later tool message can answer are dropped. */
  function SafeHistory(history: seq<Message>): seq<Message> {
    seq(|history|, i requires 0 <= i < |history| =>
      if history[i].role.Assistant? && history[i].calls.Some? && history[i].calls.value != [] && !ToolAfter(history, i)
      then history[i].(calls := None) else history[i])
  }

  predicate ToolAfter(history: seq<Message>, i: nat) {
    exists j | i < j < |history| :: history[j].role.Tool?
  }

  /** Stripping loses the calls of an assistant message without a later tool message, and
      nothing else; what is left needs no second stripping. */
  lemma SafeHistoryStrips(history: seq<Message>)
    ensures var safe := SafeHistory(history);
      && |safe| == |history| && SafeHistory(safe) == safe
      && forall i | 0 <= i < |safe| ::
           && safe[i].(calls := history[i].calls) == history[i]
           && (safe[i].calls == history[i].calls
               || (safe[i].calls.None? && history[i].role.Assistant? && !ToolAfter(safe, i)))
           && (safe[i].role.Assistant? && safe[i].calls.Some? && safe[i].calls.value != [] ==> ToolAfter(safe, i))
  {
    var safe := SafeHistory(history);
    forall i | 0 <= i < |safe|
      ensures ToolAfter(safe, i) <==> ToolAfter(history, i)
    {
      if j :| i < j < |safe| && safe[j].role.Tool? {
        assert history[j].role.Tool?;
      }
      if j :| i < j < |history| && history[j].role.Tool? {
        assert safe[j].role.Tool?;
      }
    }
    assert |SafeHistory(safe)| == |safe| && forall i | 0 <= i < |safe| :: SafeHistory(safe)[i] == safe[i];
  }

  /** The history part of a request: a suffix, cut at the head of a turn. */
  predicate KeptFrom(history: seq<Message>, kept: seq<Message>) {
    && |kept| <= |history| && kept == history[|history| - |kept|..]
    && (kept != [] && |kept| < |history| ==> kept[0].role.User?)
  }

  /** The newest turns that fit the budget, as many as there can be. */
  ghost predicate KeptMost(c: Config, budget: int, history: seq<Message>, kept: seq<Message>) {
    if budget <= 0 then kept == []
    else
      exists turns, from: nat ::
        IsGrouping(turns, history) && LongestFit(c, turns, budget, from) && kept == Flatten(turns[from..])
  }

  method KeepHistory(c: Config, budget: int, history: seq<Message>) returns (kept: seq<Message>)
    ensures KeptFrom(history, kept) && KeptMost(c, budget, history, kept)
    ensures TurnTokens(c, kept) <= if budget > 0 then budget else 0
  {
    kept := [];
    if budget > 0 {
      var turns := GroupIntoTurns(history);
      var selected := SelectTurns(c, turns, budget);
      ghost var from := |turns| - |selected|;
      for i := 0 to |selected|
        invariant kept == Flatten(selected[..i])
      {
        assert selected[..i + 1][..i] == selected[..i];
        kept := kept + selected[i];
      }
      assert selected[..|selected|] == selected;
      KeptStartsTurn(turns, history, from);
      TurnsCost(c, selected);
    }
  }

  /** Stripping, grouping, selecting and adding the user message.  The history kept is a suffix
      cut at a turn; the first request is what the minimum and the kept turns were counted at,
      plus the drift, less a user message that was reserved twice. */
  method Prepare(c: Config, system: string, user: string, history: seq<Message>)
    returns (messages: seq<Message>, kept: seq<Message>)
    ensures messages == FirstRequest(system, user, kept) && Opens(messages, system, user, kept)
    ensures KeptFrom(SafeHistory(history), kept)
    ensures KeptMost(c, HistoryBudget(c, system, user), SafeHistory(history), kept)
    ensures RequestTokens(c, messages, c.toolsTokens)
         == MinimumRequest(c, system, user) + TurnTokens(c, kept) + Drift(c, kept) - Twice(kept, user)
    ensures MinimumRequest(c, system, user) <= c.contextMax ==>
              RequestTokens(c, messages, c.toolsTokens) <= c.contextMax + CallCarriers(kept) - Twice(kept, user)
  {
    kept := KeepHistory(c, HistoryBudget(c, system, user), SafeHistory(history));
    FirstRequestExact(c, system, user, kept);
    FirstRequestOpens(system, user, kept);
    DriftBound(c, kept);
    var selectedHistory := kept;
    if |kept| == 0 || !kept[|kept| - 1].role.User? || kept[|kept| - 1].content != user {
      selectedHistory := kept + [Message(User, user, None, None)];
    }
    messages := [Message(System, system, None, None)] + selectedHistory;
  }

  lemma {:induction false} KeptStartsTurn(turns: seq<Turn>, messages: seq<Message>, from: nat)
    requires IsGrouping(turns, messages) && from <= |turns|
    ensures |Flatten(turns[from..])| <= |messages|
    ensures Flatten(turns[from..]) == messages[|messages| - |Flatten(turns[from..])|..]
    ensures 0 < from < |turns| ==> Flatten(turns[from..]) != [] && Flatten(turns[from..])[0].role.User?
    ensures from == 0 ==> Flatten(turns[from..]) == messages
  {
    FlattenConcat(turns[..from], turns[from..]);
    assert turns == turns[..from] + turns[from..];
    if 0 < from < |turns| {
      FlattenConcat([turns[from]], turns[from + 1..]);
      assert turns[from..] == [turns[from]] + turns[from + 1..];
      assert [turns[from]][..0] == [];
      assert Flatten([turns[from]]) == turns[from];
    }
  }

  // ---------------------------------------------------------------------------------
  // When Checkpoint 1 refuses the first call
  // ---------------------------------------------------------------------------------

  predicate IsCarrier(m: Message) {
    m.calls.Some?
  }

  /** What a request finds when nobody else writes to its conversation: the newest messages,
      the user message last, questions no longer than the endpoint takes, and between any two
      answers with calls something else, their results or the next question. */
  predicate Stored(history: seq<Message>, user: string) {
    && 0 < |history| <= HISTORY_LIMIT
    && history[|history| - 1] == Message(User, user, None, None)
    && (forall i | 0 <= i < |history| && history[i].role.User? :: |history[i].content| <= QUESTION_LIMIT)
    && (forall i | 0 <= i < |history| && IsCarrier(history[i]) ::
          history[i].role.Assistant? && history[i].calls.value != [])
    && Spaced(history)
  }

  predicate Spaced(history: seq<Message>) {
    forall i | 0 <= i < |history| - 1 :: !IsCarrier(history[i]) || !IsCarrier(history[i + 1])
  }

  lemma {:induction false} SpacedCarriers(history: seq<Message>)
    requires Spaced(history)
    ensures CallCarriers(history) <= (|history| + 1) / 2
    decreases |history|
  {
    if |history| >= 2 {
      var n := |history|;
      SpacedCarriers(history[..n - 2]);
      assert history[..n - 1][..n - 2] == history[..n - 2];
      assert history[..n - 1][n - 2] == history[n - 2];
    }
  }

  lemma {:induction false} NoCarriers(messages: seq<Message>)
    requires forall i | 0 <= i < |messages| :: !IsCarrier(messages[i])
    ensures CallCarriers(messages) == 0
  {
    if messages != [] {
      NoCarriers(messages[..|messages| - 1]);
    }
  }

  /** Stripping only removes calls, and always those of the last two messages. */
  lemma SafeSpaced(history: seq<Message>, user: string)
    requires Stored(history, user)
    ensures Spaced(SafeHistory(history))
    ensures forall i | |history| - 2 <= i < |history| && 0 <= i :: !IsCarrier(SafeHistory(history)[i])
  {
    var safe := SafeHistory(history);
    forall i | 0 <= i < |safe|
      ensures IsCarrier(safe[i]) ==> IsCarrier(history[i]) && i < |safe| - 2
    {
      if IsCarrier(safe[i]) {
        assert ToolAfter(history, i);
      }
    }
  }

  /** Nine at most. */
  lemma SafeCarriers(history: seq<Message>, user: string)
    requires Stored(history, user)
    ensures CallCarriers(SafeHistory(history)) <= 9
  {
    SafeSpaced(history, user);
    LastTwoBare(SafeHistory(history));
  }

  lemma LastTwoBare(safe: seq<Message>)
    requires |safe| <= HISTORY_LIMIT && Spaced(safe)
    requires forall i | |safe| - 2 <= i < |safe| && 0 <= i :: !IsCarrier(safe[i])
    ensures CallCarriers(safe) <= 9
  {
    if |safe| < 2 {
      NoCarriers(safe);
    } else {
      var n := |safe| - 2;
      SpacedCarriers(safe[..n]);
      assert safe[..n + 1][..n] == safe[..n];
      assert safe[..n + 1][n] == safe[n];
    }
  }

  predicate FirstCallRefused(c: Config, system: string, user: string, kept: seq<Message>) {
    && MinimumRequest(c, system, user) <= c.contextMax
    && RequestTokens(c, FirstRequest(system, user, kept), c.toolsTokens) > c.contextMax
  }

  ghost predicate Keeps(c: Config, system: string, user: string, history: seq<Message>, kept: seq<Message>) {
    && Stored(history, user)
    && KeptMost(c, HistoryBudget(c, system, user), SafeHistory(history), kept)
  }

  lemma KeptSuffix(c: Config, budget: int, messages: seq<Message>, kept: seq<Message>)
    requires KeptMost(c, budget, messages, kept)
    ensures KeptFrom(messages, kept) && (kept != [] ==> TurnTokens(c, kept) <= budget)
  {
    if budget > 0 {
      var turns, from: nat :|
        IsGrouping(turns, messages) && LongestFit(c, turns, budget, from) && kept == Flatten(turns[from..]);
      KeptStartsTurn(turns, messages, from);
      TurnsCost(c, turns[from..]);
    }
  }

  lemma SuffixCarriers(messages: seq<Message>, kept: seq<Message>)
    requires KeptFrom(messages, kept)
    ensures CallCarriers(kept) <= CallCarriers(messages)
  {
    var cut := |messages| - |kept|;
    assert messages == messages[..cut] + kept;
    MessagesConcat(Config(0, 0, 0, _ => 0), messages[..cut], kept);
  }

  lemma SuffixEnd(messages: seq<Message>, kept: seq<Message>)
    requires KeptFrom(messages, kept) && kept != []
    ensures messages != [] && kept[|kept| - 1] == messages[|messages| - 1]
  {
  }

  /** The kept history is empty or ends with the user message, and carries calls in at most
      nine messages. */
  lemma KeptEnds(user: string, history: seq<Message>, kept: seq<Message>)
    requires Stored(history, user) && KeptFrom(SafeHistory(history), kept)
    ensures kept != [] ==> kept[|kept| - 1] == Question(user)
    ensures CallCarriers(kept) <= 9
  {
    SafeCarriers(history, user);
    SuffixCarriers(SafeHistory(history), kept);
    if kept != [] {
      SuffixEnd(SafeHistory(history), kept);
    }
  }

  /** A user message that was kept gives back more than it costs twice. */
  lemma KeptUserDrift(c: Config, user: string, kept: seq<Message>)
    requires kept != [] && kept[|kept| - 1] == Message(User, user, None, None)
    ensures Drift(c, kept) - Twice(kept, user) <= CallCarriers(kept) - Tokens(|user| + EMPTY_LIST)
  {
    DriftBound(c, kept[..|kept| - 1]);
  }

  lemma RefusedNeedsCarriers(c: Config, system: string, user: string, history: seq<Message>, kept: seq<Message>)
    requires Keeps(c, system, user, history, kept) && FirstCallRefused(c, system, user, kept)
    ensures Tokens(|user| + EMPTY_LIST) < CallCarriers(kept) <= 9
  {
    KeptSuffix(c, HistoryBudget(c, system, user), SafeHistory(history), kept);
    KeptEnds(user, history, kept);
    FirstRequestExact(c, system, user, kept);
    if kept != [] {
      KeptUserDrift(c, user, kept);
    }
  }

  /** k exchanges of one call and its result. */
  function Exchanges(k: nat, asks: Message, answers: Message): seq<Message> {
    if k == 0 then [] else Exchanges(k - 1, asks, answers) + [asks, answers]
  }

  lemma {:induction false} ExchangesDrift(c: Config, k: nat, asks: Message, answers: Message, w: nat)
    requires asks.calls.Some? && answers.calls.None?
    requires MessageTokens(c, asks) == HistoryTokens(c, asks) + 1
    requires MessageTokens(c, answers) == HistoryTokens(c, answers)
    requires w == HistoryTokens(c, asks) + HistoryTokens(c, answers)
    ensures Drift(c, Exchanges(k, asks, answers)) == k == CallCarriers(Exchanges(k, asks, answers))
    ensures TurnTokens(c, Exchanges(k, asks, answers)) == k * w
  {
    if k > 0 {
      ExchangesDrift(c, k - 1, asks, answers, w);
      var longer := Exchanges(k - 1, asks, answers) + [asks];
      assert longer[..|longer| - 1] == Exchanges(k - 1, asks, answers);
      assert longer + [answers] == Exchanges(k, asks, answers) && (longer + [answers])[..|longer|] == longer;
      Together(k - 1, 1, w);
    }
  }

  lemma TensOfTokens(x: nat, q: nat)
    ensures Tokens(x + 10 * q) == Tokens(x) + 3 * q
  {
  }

  lemma DigitDrift(d: nat)
    requires 0 < d < 10
    ensures Tokens(10 - d) + Tokens(d) == 4
  {
  }

  lemma PaddedDrift(j: nat, d: nat, m: nat)
    requires d == j % 10 && d != 0
    ensures Tokens(10 - d + 10 * m) + Tokens(j) == Tokens(10 - d + 10 * m + j) + 1
    ensures Tokens(10 - d + 10 * m + j) == Tokens(10 - d + j) + 3 * m
  {
    var q := j / 10;
    DigitDrift(d);
    TensOfTokens(10 - d, m);
    TensOfTokens(d, q);
    TensOfTokens(10, q);
    TensOfTokens(10 + 10 * q, m);
    assert j == d + 10 * q;
  }

  function Question(text: string): Message {
    Message(User, text, None, None)
  }

  /** Two turns of exchanges, none longer than the loop allows, and the new user message. */
  function TwoTurns(k: nat, asks: Message, answers: Message, question: string, user: string): seq<Message>
    requires k <= 9
  {
    var older := if k > 5 then k - 5 else 0;
    Exchanges(older, asks, answers) + [Question(question)] + Exchanges(k - older, asks, answers) + [Question(user)]
  }

  /** Calls come with an answer right behind them, and questions are not too long. */
  predicate OrderlyAt(messages: seq<Message>, i: nat)
    requires i < |messages|
  {
    && (IsCarrier(messages[i]) ==>
          && messages[i].role.Assistant? && messages[i].calls.value != []
          && i + 1 < |messages| && messages[i + 1].role.Tool? && !IsCarrier(messages[i + 1]))
    && (messages[i].role.User? ==> |messages[i].content| <= QUESTION_LIMIT)
  }

  predicate Orderly(messages: seq<Message>) {
    forall i: nat | i < |messages| :: OrderlyAt(messages, i)
  }

  lemma OrderlyConcat(a: seq<Message>, b: seq<Message>)
    requires Orderly(a) && Orderly(b)
    ensures Orderly(a + b)
  {
    forall i: nat | i < |a + b|
      ensures OrderlyAt(a + b, i)
    {
      if i < |a| {
        assert OrderlyAt(a, i);
      } else {
        assert OrderlyAt(b, i - |a|);
      }
    }
  }

  lemma {:induction false} ExchangesOrderly(k: nat, asks: Message, answers: Message)
    requires asks.role.Assistant? && asks.calls.Some? && asks.calls.value != []
    requires answers.role.Tool? && answers.calls.None?
    ensures Orderly(Exchanges(k, asks, answers)) && |Exchanges(k, asks, answers)| == 2 * k
  {
    if k > 0 {
      ExchangesOrderly(k - 1, asks, answers);
      assert OrderlyAt([asks, answers], 0) && OrderlyAt([asks, answers], 1);
      OrderlyConcat(Exchanges(k - 1, asks, answers), [asks, answers]);
    }
  }

  /** Such messages, ending with the user message, can be stored, and keep their calls. */
  lemma OrderlyIsStored(history: seq<Message>, user: string)
    requires Orderly(history) && 0 < |history| <= HISTORY_LIMIT && history[|history| - 1] == Question(user)
    ensures Stored(history, user) && SafeHistory(history) == history
  {
    forall i: nat | i < |history|
      ensures IsCarrier(history[i]) ==> ToolAfter(history, i)
    {
      assert OrderlyAt(history, i);
      assert IsCarrier(history[i]) ==> history[i + 1].role.Tool?;
    }
    forall i | 0 <= i < |history| && IsCarrier(history[i])
      ensures history[i].role.Assistant? && history[i].calls.value != []
    {
      assert OrderlyAt(history, i);
    }
    forall i | 0 <= i < |history| - 1
      ensures !IsCarrier(history[i]) || !IsCarrier(history[i + 1])
    {
      assert OrderlyAt(history, i);
    }
    forall i | 0 <= i < |history| && history[i].role.User?
      ensures |history[i].content| <= QUESTION_LIMIT
    {
      assert OrderlyAt(history, i);
    }
  }

  lemma TwoTurnsStored(k: nat, asks: Message, answers: Message, question: string, user: string)
    requires k <= 9 && asks.role.Assistant? && asks.calls.Some? && asks.calls.value != []
    requires answers.role.Tool? && answers.calls.None?
    requires |question| <= QUESTION_LIMIT && |user| <= QUESTION_LIMIT
    ensures Stored(TwoTurns(k, asks, answers, question, user), user)
    ensures SafeHistory(TwoTurns(k, asks, answers, question, user)) == TwoTurns(k, asks, answers, question, user)
  {
    var older := if k > 5 then k - 5 else 0;
    var early, late := Exchanges(older, asks, answers), Exchanges(k - older, asks, answers);
    ExchangesOrderly(older, asks, answers);
    ExchangesOrderly(k - older, asks, answers);
    assert OrderlyAt([Question(question)], 0) && OrderlyAt([Question(user)], 0);
    OrderlyConcat(early, [Question(question)]);
    OrderlyConcat(early + [Question(question)], late);
    OrderlyConcat(early + [Question(question)] + late, [Question(user)]);
    OrderlyIsStored(TwoTurns(k, asks, answers, question, user), user);
  }

  lemma TwoTurnsDrift(c: Config, k: nat, asks: Message, answers: Message, question: string, user: string, w: nat)
    requires k <= 9 && asks.calls.Some? && answers.calls.None?
    requires MessageTokens(c, asks) == HistoryTokens(c, asks) + 1
    requires MessageTokens(c, answers) == HistoryTokens(c, answers)
    requires Tokens(|question|) == Tokens(|question| + EMPTY_LIST)
    requires w == HistoryTokens(c, asks) + HistoryTokens(c, answers)
    ensures var all := TwoTurns(k, asks, answers, question, user);
      && CallCarriers(all) == k && Drift(c, all) == k + Tokens(|user|) - Tokens(|user| + EMPTY_LIST)
      && TurnTokens(c, all) == k * w + Tokens(|question| + EMPTY_LIST) + Tokens(|user| + EMPTY_LIST)
  {
    var older := if k > 5 then k - 5 else 0;
    var early, late := Exchanges(older, asks, answers), Exchanges(k - older, asks, answers);
    ExchangesDrift(c, older, asks, answers, w);
    ExchangesDrift(c, k - older, asks, answers, w);
    QuestionsDrift(c, early, question, late, user);
    Together(older, k - older, w);
  }

  lemma Together(a: nat, b: nat, w: nat)
    ensures a * w + b * w == (a + b) * w
  {
  }

  lemma QuestionsDrift(c: Config, early: seq<Message>, older: string, late: seq<Message>, newer: string)
    ensures var all := early + [Question(older)] + late + [Question(newer)];
      && CallCarriers(all) == CallCarriers(early) + CallCarriers(late)
      && Drift(c, all) == Drift(c, early) + Tokens(|older|) - Tokens(|older| + EMPTY_LIST)
                          + Drift(c, late) + Tokens(|newer|) - Tokens(|newer| + EMPTY_LIST)
      && TurnTokens(c, all) == TurnTokens(c, early) + Tokens(|older| + EMPTY_LIST)
                               + TurnTokens(c, late) + Tokens(|newer| + EMPTY_LIST)
  {
    DriftMore(c, early, Question(older));
    MessagesConcat(c, early + [Question(older)], late);
    DriftMore(c, early + [Question(older)] + late, Question(newer));
  }

  lemma DriftMore(c: Config, messages: seq<Message>, m: Message)
    requires m.calls.None?
    ensures Drift(c, messages + [m]) == Drift(c, messages) + Tokens(|m.content|) - Tokens(|m.content| + EMPTY_LIST)
    ensures CallCarriers(messages + [m]) == CallCarriers(messages)
    ensures TurnTokens(c, messages + [m]) == TurnTokens(c, messages) + Tokens(|m.content| + EMPTY_LIST)
  {
    assert (messages + [m])[..|messages|] == messages;
  }

  lemma {:induction false} GroupingExists(messages: seq<Message>) returns (turns: seq<Turn>, current: Turn)
    ensures Grouped(turns, current, messages)
  {
    if messages == [] {
      turns, current := [], [];
    } else {
      var init, msg := messages[..|messages| - 1], messages[|messages| - 1];
      turns, current := GroupingExists(init);
      assert messages == init + [msg];
      if msg.role.User? {
        GroupedUser(turns, current, init, msg);
        turns, current := if |current| > 0 then turns + [current] else turns, [msg];
      } else {
        GroupedOther(turns, current, init, msg);
        current := current + [msg];
      }
    }
  }

  /** A history that fits as a whole is kept as a whole. */
  lemma AllKept(c: Config, budget: int, history: seq<Message>)
    requires budget > 0 && history != [] && TurnTokens(c, history) <= budget
    ensures KeptMost(c, budget, history, history)
  {
    var turns, current := GroupingExists(history);
    var all := turns + [current];
    assert all[0..] == all;
    TurnsCost(c, all);
    assert LongestFit(c, all, budget, 0);
  }

  /** A text of so many tokens, no fewer than it has together with an empty list of calls. */
  function TextOf(tokens: nat): (text: string)
    requires tokens > 0
    ensures Tokens(|text|) == tokens == Tokens(|text| + EMPTY_LIST)
  {
    seq(10 * ((tokens - 1) / 3) + 1 + 3 * ((tokens - 1) % 3), _ => 'x')
  }

  /** An assistant's message with these calls and a text that rounds badly with them. */
  function Padded(c: Config, calls: seq<Call>, m: nat): Message {
    Message(Assistant, seq(10 - c.jsonLength(calls) % 10 + 10 * m, _ => 'x'), Some(calls), None)
  }

  /** What k exchanges with these calls, a short question and the user message take at least. */
  function RoomFor(c: Config, k: nat, calls: seq<Call>, user: string): nat {
    k * (HistoryTokens(c, Padded(c, calls, 0)) + 1) + 1 + Tokens(|user| + EMPTY_LIST)
  }

  lemma PaddedCosts(c: Config, calls: seq<Call>, m: nat)
    requires c.jsonLength(calls) % 10 != 0
    ensures MessageTokens(c, Padded(c, calls, m)) == HistoryTokens(c, Padded(c, calls, m)) + 1
    ensures HistoryTokens(c, Padded(c, calls, m)) == HistoryTokens(c, Padded(c, calls, 0)) + 3 * m
  {
    PaddedDrift(c.jsonLength(calls), c.jsonLength(calls) % 10, m);
  }

  /** Longer texts and a longer question fill the room there is to the last token. */
  lemma Filling(k: nat, w: nat, spare: nat) returns (m: nat, more: nat)
    requires k > 0
    ensures more < 3 * k && k * (w + 3 * m) + more == k * w + spare
  {
    m, more := spare / (3 * k), spare % (3 * k);
    assert spare == (3 * k) * m + more;
    assert k * (w + 3 * m) == k * w + k * (3 * m);
    assert k * (3 * m) == (3 * k) * m;
  }

  /** A stored history that is so much longer in its answers' texts and its question. */
  lemma FilledHistory(c: Config, user: string, k: nat, calls: seq<Call>, m: nat, more: nat, w: nat)
    returns (history: seq<Message>)
    requires k <= 9 && more < 3 * k && calls != [] && c.jsonLength(calls) % 10 != 0 && |user| <= QUESTION_LIMIT
    requires w == HistoryTokens(c, Padded(c, calls, 0)) + 1 + 3 * m
    ensures Stored(history, user) && SafeHistory(history) == history && CallCarriers(history) == k
    ensures Drift(c, history) == k + Tokens(|user|) - Tokens(|user| + EMPTY_LIST)
    ensures TurnTokens(c, history) == k * w + 1 + more + Tokens(|user| + EMPTY_LIST)
  {
    var asks, answers := Padded(c, calls, m), Message(Tool, "x", None, Some(calls[0].id));
    var question := TextOf(1 + more);
    PaddedCosts(c, calls, m);
    assert HistoryTokens(c, answers) == 1 == MessageTokens(c, answers);
    history := TwoTurns(k, asks, answers, question, user);
    TwoTurnsStored(k, asks, answers, question, user);
    TwoTurnsDrift(c, k, asks, answers, question, user, w);
  }

  /** The drift is real, in every deployment with the room: some stored history with k answered
      calls fills the budget to the last token, is kept as a whole, and takes the first request
      over the limit by k less the cost of the user message. */
  lemma DriftIsReached(c: Config, system: string, user: string, k: nat, calls: seq<Call>)
    returns (history: seq<Message>)
    requires 0 < k <= 9 && calls != [] && c.jsonLength(calls) % 10 != 0 && |user| <= QUESTION_LIMIT
    requires HistoryBudget(c, system, user) >= RoomFor(c, k, calls, user)
    ensures Keeps(c, system, user, history, history) && CallCarriers(history) == k
    ensures RequestTokens(c, FirstRequest(system, user, history), c.toolsTokens)
         == c.contextMax + k - Tokens(|user| + EMPTY_LIST)
  {
    var budget := HistoryBudget(c, system, user);
    var w := HistoryTokens(c, Padded(c, calls, 0)) + 1;
    var m, more := Filling(k, w, budget - RoomFor(c, k, calls, user));
    history := FilledHistory(c, user, k, calls, m, more, w + 3 * m);
    AllKept(c, budget, history);
    FirstRequestExact(c, system, user, history);
  }

  ghost predicate CanRefuse(c: Config, system: string, user: string, k: nat) {
    exists history, kept ::
      Keeps(c, system, user, history, kept) && CallCarriers(kept) == k && FirstCallRefused(c, system, user, kept)
  }

  /** In no deployment can Checkpoint 1 refuse the first call of an undisturbed request whose
      minimum fits, with k kept messages that carry calls, unless k is more than the user
      message's tokens and at most nine: never from 25 characters on. */
  lemma RefusalNeedsMore(c: Config, system: string, user: string, k: nat)
    ensures CanRefuse(c, system, user, k) ==> Tokens(|user| + EMPTY_LIST) < k <= 9 && |user| < 25
  {
    if history, kept :|
      Keeps(c, system, user, history, kept) && CallCarriers(kept) == k && FirstCallRefused(c, system, user, kept)
    {
      RefusedNeedsCarriers(c, system, user, history, kept);
    }
  }

  /** And it can then, in every deployment whose budget has room for k exchanges. */
  lemma FirstCallRefusedIff(c: Config, system: string, user: string, k: nat, calls: seq<Call>)
    requires calls != [] && c.jsonLength(calls) % 10 != 0
    requires HistoryBudget(c, system, user) >= RoomFor(c, k, calls, user)
    ensures CanRefuse(c, system, user, k) <==> Tokens(|user| + EMPTY_LIST) < k <= 9
  {
    RefusalNeedsMore(c, system, user, k);
    if Tokens(|user| + EMPTY_LIST) < k <= 9 {
      var history := DriftIsReached(c, system, user, k, calls);
      assert FirstCallRefused(c, system, user, history);
    }
  }

  // ---------------------------------------------------------------------------------
  // After the tools ran
  // ---------------------------------------------------------------------------------

  function AssistantMessage(content: string, calls: seq<Call>): Message {
    Message(Assistant, content, Some(calls), None)
  }

  function ToolMessages(calls: seq<Call>, results: seq<string>): seq<Message>
    requires |results| <= |calls|
  {
    seq(|results|, i requires 0 <= i < |results| => Message(Tool, results[i], None, Some(calls[i].id)))
  }

  /** What the loop appends for one tool-calling response. */
  function Block(content: string, calls: seq<Call>, results: seq<string>): seq<Message>
    requires |results| <= |calls|
  {
    [AssistantMessage(content, calls)] + ToolMessages(calls, results)
  }

  /** Checkpoint 2: the request as it would be if every result took its reservation. */
  function PreToolRequest(c: Config, messages: seq<Message>, calls: seq<Call>): int {
    MessagesTokens(c, messages) + Tokens(c.jsonLength(calls)) + |calls| * Tokens(TOOL_RESULT_MAX_CHARS)
    + c.toolsTokens + c.maxTokens + SAFETY_OVERHEAD
  }

  function ResultsTokens(results: seq<string>): nat {
    if results == [] then 0 else ResultsTokens(results[..|results| - 1]) + Tokens(|results[|results| - 1]|)
  }

  lemma {:induction false} ToolMessagesTokens(c: Config, calls: seq<Call>, results: seq<string>)
    requires |results| <= |calls|
    ensures MessagesTokens(c, ToolMessages(calls, results)) == ResultsTokens(results)
  {
    if results != [] {
      var n := |results| - 1;
      ToolMessagesTokens(c, calls, results[..n]);
      assert ToolMessages(calls, results)[..n] == ToolMessages(calls, results[..n]);
    }
  }

  /** Exactly what Checkpoint 2 leaves out: the assistant's own text, and the difference
      between each result and its reservation. */
  lemma NextRequestExact(c: Config, messages: seq<Message>, content: string, calls: seq<Call>, results: seq<string>)
    requires |results| <= |calls|
    ensures RequestTokens(c, messages + Block(content, calls, results), c.toolsTokens)
         == PreToolRequest(c, messages, calls) + Tokens(|content|)
            + ResultsTokens(results) - |calls| * Tokens(TOOL_RESULT_MAX_CHARS)
  {
    var assistant := AssistantMessage(content, calls);
    MessagesConcat(c, messages, Block(content, calls, results));
    MessagesConcat(c, [assistant], ToolMessages(calls, results));
    ToolMessagesTokens(c, calls, results);
    assert [assistant][..0] == [];
    assert MessagesTokens(c, [assistant]) == MessageTokens(c, assistant);
  }

  function Truncate(text: string): string {
    if |text| > TOOL_RESULT_MAX_CHARS then text[..TOOL_RESULT_MAX_CHARS] + TRUNCATED else text
  }

  lemma {:induction false} TruncatedResults(results: seq<string>)
    requires forall i | 0 <= i < |results| :: |results[i]| <= TOOL_RESULT_MAX_CHARS + |TRUNCATED|
    ensures ResultsTokens(results) <= 1205 * |results|
  {
    if results != [] {
      assert Tokens(|results[|results| - 1]|) <= Tokens(4015) == 1205;
      TruncatedResults(results[..|results| - 1]);
    }
  }

  /** Once Checkpoint 2 has passed and every tool succeeded, the next request is over the
      limit by at most the assistant's text and five tokens a call. */
  lemma NextRequestBound(c: Config, messages: seq<Message>, content: string, calls: seq<Call>, outputs: seq<string>,
                         results: seq<string>)
    requires |results| == |outputs| == |calls| && forall i | 0 <= i < |results| :: results[i] == Truncate(outputs[i])
    requires PreToolRequest(c, messages, calls) <= c.contextMax
    ensures RequestTokens(c, messages + Block(content, calls, results), c.toolsTokens)
         <= c.contextMax + Tokens(|content|) + 5 * |calls|
  {
    NextRequestExact(c, messages, content, calls, results);
    TruncatedResults(results);
    assert Tokens(TOOL_RESULT_MAX_CHARS) == 1200;
  }
}

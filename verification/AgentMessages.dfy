/**
 The message lists of the agent runtime: tool pairing, hook context and saved
 history in `kirara_ai/agent_runtime/executor.py`.
 */
module AgentMessages {
  import opened Wrappers
  import TextUnits

  datatype Role = System | User | Assistant | Tool

  datatype Part =
    | Text(text: string)
    | Image(media: string)
    | Call(id: Option<string>, name: string, parameters: string)
    | Answer(id: Option<string>, name: string, content: string, isError: bool)

  datatype Message = Message(role: Role, parts: seq<Part>)

  // ---- Tool pairing -----------------------------------------------------------------

  predicate HasId(id: Option<string>)
  {
    id.Some? && id.value != ""
  }

  /** This call is the one the answer names: by id, or by name when it carries no id. */
  predicate Matches(call: Part, answer: Part)
    requires call.Call? && answer.Answer?
  {
    if HasId(answer.id) then call.id == answer.id else call.name == answer.name
  }

  predicate AnswersPrevious(previous: Message, message: Message)
  {
    && previous.role.Assistant?
    && (exists c :: 0 <= c < |previous.parts| && previous.parts[c].Call?)
    && forall r :: 0 <= r < |message.parts| && message.parts[r].Answer? ==>
         exists c :: 0 <= c < |previous.parts| && previous.parts[c].Call? && Matches(previous.parts[c], message.parts[r])
  }

  /** Every tool message follows directly after the assistant message whose calls it answers. */
  predicate Paired(messages: seq<Message>)
  {
    forall i :: 0 <= i < |messages| && messages[i].role.Tool? ==>
                  i > 0 && AnswersPrevious(messages[i - 1], messages[i])
  }

  predicate OpensFree(messages: seq<Message>)
  {
    messages != [] ==> !messages[0].role.Tool?
  }

  lemma PairedSlice(messages: seq<Message>, lo: nat, hi: nat)
    requires Paired(messages) && lo <= hi <= |messages| && OpensFree(messages[lo..hi])
    ensures Paired(messages[lo..hi])
  {
    hide AnswersPrevious;
    var slice := messages[lo..hi];
    forall i | 0 <= i < |slice| && slice[i].role.Tool? ensures i > 0 && AnswersPrevious(slice[i - 1], slice[i]) {
      assert messages[lo + i].role.Tool?;
    }
  }

  lemma PairedConcat(a: seq<Message>, b: seq<Message>)
    requires Paired(a) && Paired(b)
    ensures Paired(a + b)
  {
    hide AnswersPrevious;
    var c := a + b;
    forall i | 0 <= i < |c| && c[i].role.Tool? ensures i > 0 && AnswersPrevious(c[i - 1], c[i]) {
      if i < |a| {
        assert a[i].role.Tool?;
      } else {
        assert b[i - |a|].role.Tool?;
      }
    }
  }

  /** `_require_valid_tool_pairs`: accepts exactly the paired lists. */
  method RequireValidToolPairs(messages: seq<Message>) returns (ok: bool)
    ensures ok == Paired(messages)
  {
    for index := 0 to |messages|
      invariant forall i :: 0 <= i < index && messages[i].role.Tool? ==>
                              i > 0 && AnswersPrevious(messages[i - 1], messages[i])
    {
      var message := messages[index];
      if message.role != Tool {
        continue;
      }
      if index == 0 || !AnswersPrevious(messages[index - 1], message) {
        return false;
      }
    }
    return true;
  }

  // ---- Turns -----------------------------------------------------------------------------

  function FirstSystem(messages: seq<Message>): (i: Option<nat>)
    ensures i.Some? ==> i.value < |messages| && messages[i.value].role.System?
    ensures i.Some? ==> forall k :: 0 <= k < i.value ==> !messages[k].role.System?
    ensures i.None? ==> forall k :: 0 <= k < |messages| ==> !messages[k].role.System?
  {
    if messages == [] then None
    else if messages[0].role.System? then Some(0)
    else
      var rest := FirstSystem(messages[1..]);
      if rest.None? then None else Some(rest.value + 1)
  }

  function LatestUser(messages: seq<Message>): (i: Option<nat>)
    ensures i.Some? ==> i.value < |messages| && messages[i.value].role.User?
    ensures i.Some? ==> forall k :: i.value < k < |messages| ==> !messages[k].role.User?
    ensures i.None? ==> forall k :: 0 <= k < |messages| ==> !messages[k].role.User?
  {
    if messages == [] then None
    else
      var n := |messages| - 1;
      if messages[n].role.User? then Some(n) else LatestUser(messages[..n])
  }

  /** The latest user message and everything that came of it. */
  function CurrentTurn(messages: seq<Message>): (turn: seq<Message>)
    ensures turn != [] ==> turn[0].role.User?
  {
    var latest := LatestUser(messages);
    if latest.None? then [] else messages[latest.value..]
  }

  lemma LatestUserIs(messages: seq<Message>, i: nat)
    requires i < |messages| && messages[i].role.User?
    requires forall k :: i < k < |messages| ==> !messages[k].role.User?
    ensures LatestUser(messages) == Some(i) && CurrentTurn(messages) == messages[i..]
  {
  }

  /** The turn is decided by the end of the list alone. */
  lemma TurnOfSuffix(before: seq<Message>, turn: seq<Message>)
    requires turn != [] && CurrentTurn(turn) == turn
    ensures CurrentTurn(before + turn) == turn
  {
    hide LatestUser;
    var all := before + turn;
    var i := LatestUser(turn).value;
    assert turn[i..] == turn;
    assert forall k :: |before| < k < |all| ==> all[k] == turn[k - |before|];
    LatestUserIs(all, |before|);
    assert all[|before|..] == turn;
  }

  lemma TurnOfTurn(messages: seq<Message>)
    requires CurrentTurn(messages) != []
    ensures CurrentTurn(CurrentTurn(messages)) == CurrentTurn(messages)
  {
    hide LatestUser;
    var turn := CurrentTurn(messages);
    var i := LatestUser(messages).value;
    assert forall k :: 0 < k < |turn| ==> turn[k] == messages[i + k];
    LatestUserIs(turn, 0);
    assert turn[0..] == turn;
  }

  lemma TurnGrows(messages: seq<Message>, more: seq<Message>)
    requires CurrentTurn(messages) != [] && forall k :: 0 <= k < |more| ==> !more[k].role.User?
    ensures CurrentTurn(messages + more) == CurrentTurn(messages) + more
  {
    var i := LatestUser(messages).value;
    var all := messages + more;
    assert forall k :: |messages| <= k < |all| ==> all[k] == more[k - |messages|];
    LatestUserIs(all, i);
    assert all[i..] == messages[i..] + more;
  }

  /** What every request of a run looks like: one leading system message, a user turn, paired tools. */
  predicate IsConversation(messages: seq<Message>)
  {
    Paired(messages) && messages != [] && messages[0].role.System? && CurrentTurn(messages) != []
  }

  // ---- Building, hook context, saved history ----------------------------------------------------

  function BuildMessages(system: string, history: seq<Message>, user: seq<Part>): seq<Message>
  {
    [Message(System, [Text(system)])] + history + [Message(User, user)]
  }

  lemma BuiltIsConversation(system: string, history: seq<Message>, user: seq<Part>)
    requires Paired(history)
    ensures var built := BuildMessages(system, history, user);
            IsConversation(built) && CurrentTurn(built) == [Message(User, user)]
  {
    hide AnswersPrevious;
    var head, tail := [Message(System, [Text(system)])], [Message(User, user)];
    PairedConcat(head, history);
    PairedConcat(head + history, tail);
    LatestUserIs(tail, 0);
    assert tail[0..] == tail;
    TurnOfSuffix(head + history, tail);
  }

  /** The message that carries the texts of a hook. */
  function HookMessage(texts: seq<string>): Message
  {
    Message(System, [Text(TextUnits.Join("\n\n", texts))])
  }

  function InjectHookContext(messages: seq<Message>, texts: seq<string>): seq<Message>
  {
    if texts == [] then messages
    else
      var hook := HookMessage(texts);
      var at := if messages != [] && messages[0].role.System? then 1 else 0;
      messages[..at] + [hook] + messages[at..]
  }

  lemma TurnIsNotSystem(previous: Message, message: Message)
    requires AnswersPrevious(previous, message)
    ensures previous.role.Assistant?
  {
  }

  lemma TailOpensFree(messages: seq<Message>)
    requires IsConversation(messages)
    ensures OpensFree(messages[1..])
  {
    if |messages| > 1 && messages[1].role.Tool? {
      TurnIsNotSystem(messages[0], messages[1]);
    }
  }

  lemma NewHeadKeepsTurn(head: seq<Message>, messages: seq<Message>)
    requires messages != [] && messages[0].role.System? && CurrentTurn(messages) != []
    ensures CurrentTurn(head + messages[1..]) == CurrentTurn(messages)
  {
    hide LatestUser;
    var i := LatestUser(messages).value;
    TurnOfTurn(messages);
    hide CurrentTurn;
    TurnOfSuffix(head + messages[1..i], messages[i..]);
    SplitBehind(head, messages, i);
  }

  lemma SplitBehind<T>(head: seq<T>, s: seq<T>, i: nat)
    requires 1 <= i <= |s|
    ensures head + s[1..] == head + s[1..i] + s[i..]
  {
    assert s[1..] == s[1..i] + s[i..];
  }

  /** Other messages may stand in for the first one. */
  lemma NewHeadKeepsConversation(head: seq<Message>, messages: seq<Message>)
    requires IsConversation(messages) && Paired(head) && head != [] && head[0].role.System?
    ensures IsConversation(head + messages[1..])
    ensures CurrentTurn(head + messages[1..]) == CurrentTurn(messages)
  {
    hide Paired, CurrentTurn, OpensFree;
    TailOpensFree(messages);
    assert messages[1..|messages|] == messages[1..];
    PairedSlice(messages, 1, |messages|);
    PairedConcat(head, messages[1..]);
    NewHeadKeepsTurn(head, messages);
  }

  lemma InjectionAfterSystem(messages: seq<Message>, texts: seq<string>)
    requires messages != [] && messages[0].role.System? && texts != []
    ensures InjectHookContext(messages, texts) == [messages[0], HookMessage(texts)] + messages[1..]
  {
    hide TextUnits.Join;
    var hook := HookMessage(texts);
    assert messages[..1] + [hook] == [messages[0], hook];
  }

  lemma InjectionKeepsConversation(messages: seq<Message>, texts: seq<string>)
    requires IsConversation(messages)
    ensures var r := InjectHookContext(messages, texts);
            IsConversation(r) && CurrentTurn(r) == CurrentTurn(messages)
  {
    hide TextUnits.Join;
    if texts != [] {
      InjectionAfterSystem(messages, texts);
      var hook := HookMessage(texts);
      NewHeadKeepsConversation([messages[0], hook], messages);
    }
  }

  /** `_append_system_text`: the catalogue joins the first system message. */
  function AppendSystemText(messages: seq<Message>, text: string): seq<Message>
  {
    if text == "" then messages
    else
      var i := FirstSystem(messages);
      if i.None? then [Message(System, [Text(text)])] + messages
      else messages[i.value := Message(System, messages[i.value].parts + [Text(text)])]
  }

  lemma CatalogueKeepsConversation(messages: seq<Message>, text: string)
    requires IsConversation(messages)
    ensures var r := AppendSystemText(messages, text);
            IsConversation(r) && CurrentTurn(r) == CurrentTurn(messages) && |r| == |messages|
  {
    hide IsConversation;
    if text != "" {
      assert messages != [] && messages[0].role.System? by { ConversationHead(messages); }
      var head := Message(System, messages[0].parts + [Text(text)]);
      NewHeadKeepsConversation([head], messages);
      assert messages[0 := head] == [head] + messages[1..];
    }
  }

  lemma ConversationHead(messages: seq<Message>)
    requires IsConversation(messages)
    ensures messages != [] && messages[0].role.System? && CurrentTurn(messages) != [] && Paired(messages)
  {
  }

  // ---- The first request of a turn ------------------------------------------------------------------

  /** Built, with the context of the start-up hooks, and with the tool catalogue. */
  function FirstMessages(system: string, context: seq<string>, catalogue: string, stored: seq<Message>, user: seq<Part>)
    : seq<Message>
  {
    AppendSystemText(InjectHookContext(BuildMessages(system, stored, user), context), catalogue)
  }

  /** The system prompt with the catalogue behind it, and the hooks' context. */
  function FirstHead(system: string, context: seq<string>, catalogue: string): seq<Message>
  {
    [Message(System, [Text(system)] + if catalogue == "" then [] else [Text(catalogue)])]
    + if context == [] then [] else [HookMessage(context)]
  }

  /** Behind the head stands the stored history, unbroken, and then the user's message. */
  lemma FirstMessagesRecall(system: string, context: seq<string>, catalogue: string, stored: seq<Message>, user: seq<Part>)
    ensures FirstMessages(system, context, catalogue, stored, user)
         == FirstHead(system, context, catalogue) + stored + [Message(User, user)]
  {
    hide HookMessage;
    var prompt := Message(System, [Text(system)]);
    var built := BuildMessages(system, stored, user);
    var hook := if context == [] then [] else [HookMessage(context)];
    var injected := InjectHookContext(built, context);
    assert built[0] == prompt && built[1..] == stored + [Message(User, user)];
    assert injected == [prompt] + hook + (stored + [Message(User, user)]) by {
      if context != [] {
        InjectionAfterSystem(built, context);
      }
    }
    assert FirstSystem(injected) == Some(0);
    var rest := hook + (stored + [Message(User, user)]);
    assert injected == [prompt] + rest;
    var head := Message(System, [Text(system)] + if catalogue == "" then [] else [Text(catalogue)]);
    if catalogue == "" {
      assert [Text(system)] + [] == [Text(system)];
    } else {
      assert injected[0 := head] == [head] + rest;
    }
    Regrouped(head, hook, stored, Message(User, user));
  }

  lemma Regrouped(head: Message, hook: seq<Message>, stored: seq<Message>, user: Message)
    ensures [head] + (hook + (stored + [user])) == [head] + hook + stored + [user]
  {
  }

  lemma FirstMessagesAre(system: string, context: seq<string>, catalogue: string, stored: seq<Message>, user: seq<Part>)
    requires Paired(stored)
    ensures var messages := FirstMessages(system, context, catalogue, stored, user);
            IsConversation(messages) && CurrentTurn(messages) == [Message(User, user)]
  {
    hide IsConversation, CurrentTurn, Paired;
    var built := BuildMessages(system, stored, user);
    BuiltIsConversation(system, stored, user);
    InjectionKeepsConversation(built, context);
    CatalogueKeepsConversation(InjectHookContext(built, context), catalogue);
  }

  function WithoutSystem(messages: seq<Message>): seq<Message>
  {
    if messages == [] then []
    else
      var n := |messages| - 1;
      WithoutSystem(messages[..n]) + if messages[n].role.System? then [] else [messages[n]]
  }

  /** `_persist_history`: no system messages, and the model's answer at the end. */
  function PersistedHistory(messages: seq<Message>, response: Message): seq<Message>
  {
    WithoutSystem(messages) + [response]
  }

  /** Exactly the system messages are missing, and the others keep their order. */
  lemma {:induction false} SystemIsLeftOut(a: seq<Message>, m: Message, b: seq<Message>)
    ensures WithoutSystem(a + [m] + b)
         == WithoutSystem(a) + (if m.role.System? then [] else [m]) + WithoutSystem(b)
    decreases |b|
  {
    var all := a + [m] + b;
    var last := |all| - 1;
    if b == [] {
      assert all[..last] == a;
    } else {
      var n := |b| - 1;
      SystemIsLeftOut(a, m, b[..n]);
      assert all[..last] == a + [m] + b[..n];
    }
  }

  lemma {:induction false} WithoutSystemConcat(a: seq<Message>, b: seq<Message>)
    ensures WithoutSystem(a + b) == WithoutSystem(a) + WithoutSystem(b)
  {
    if b == [] {
      assert a + b == a;
    } else {
      var n := |b| - 1;
      WithoutSystemConcat(a, b[..n]);
      assert (a + b)[..|a + b| - 1] == a + b[..n];
    }
  }

  /** What a hook adds is never saved. */
  lemma InjectionIsNotSaved(messages: seq<Message>, texts: seq<string>)
    ensures WithoutSystem(InjectHookContext(messages, texts)) == WithoutSystem(messages)
  {
    hide WithoutSystem, TextUnits.Join;
    if texts != [] {
      var at := if messages != [] && messages[0].role.System? then 1 else 0;
      assert messages == messages[..at] + messages[at..];
      WithoutSystemConcat(messages[..at], messages[at..]);
      SystemIsLeftOut(messages[..at], HookMessage(texts), messages[at..]);
    }
  }

  /** What is saved holds no system message, so saving it again would leave nothing out. */
  lemma {:induction false} SavedIsKept(messages: seq<Message>, response: Message)
    requires !response.role.System?
    ensures WithoutSystem(PersistedHistory(messages, response)) == PersistedHistory(messages, response)
  {
    WithoutSystemTwice(messages);
    WithoutSystemConcat(WithoutSystem(messages), [response]);
    assert [response][..0] == [];
  }

  lemma {:induction false} WithoutSystemTwice(messages: seq<Message>)
    ensures WithoutSystem(WithoutSystem(messages)) == WithoutSystem(messages)
  {
    if messages != [] {
      var n := |messages| - 1;
      WithoutSystemTwice(messages[..n]);
      var last := if messages[n].role.System? then [] else [messages[n]];
      WithoutSystemConcat(WithoutSystem(messages[..n]), last);
      assert last != [] ==> last[..0] == [];
    }
  }

  lemma PairedAppend(before: seq<Message>, last: Message)
    requires Paired(before)
    requires last.role.Tool? ==> before != [] && AnswersPrevious(before[|before| - 1], last)
    ensures Paired(before + [last])
  {
    hide AnswersPrevious;
    var r := before + [last];
    forall i | 0 <= i < |r| && r[i].role.Tool? ensures i > 0 && AnswersPrevious(r[i - 1], r[i]) {
      if i < |before| {
        assert before[i].role.Tool?;
      }
    }
  }

  lemma PairedInit(messages: seq<Message>)
    requires messages != [] && Paired(messages)
    ensures var n := |messages| - 1;
            && Paired(messages[..n])
            && (messages[n].role.Tool? ==>
                  n > 0 && AnswersPrevious(messages[n - 1], messages[n]) && !messages[n - 1].role.System?)
  {
    hide AnswersPrevious;
    var n := |messages| - 1;
    if messages[n].role.Tool? {
      TurnIsNotSystem(messages[n - 1], messages[n]);
    }
  }

  lemma {:induction false} WithoutSystemKeepsPairs(messages: seq<Message>)
    requires Paired(messages)
    ensures Paired(WithoutSystem(messages))
    ensures messages != [] && !messages[|messages| - 1].role.System? ==>
              WithoutSystem(messages) != []
              && WithoutSystem(messages)[|WithoutSystem(messages)| - 1] == messages[|messages| - 1]
  {
    hide Paired, AnswersPrevious;
    if messages == [] {
      assert WithoutSystem(messages) == messages;
    } else {
      var n := |messages| - 1;
      PairedInit(messages);
      WithoutSystemKeepsPairs(messages[..n]);
      if !messages[n].role.System? {
        PairedAppend(WithoutSystem(messages[..n]), messages[n]);
      } else {
        assert WithoutSystem(messages) == WithoutSystem(messages[..n]);
      }
    }
  }

  /** A saved history is paired, so the next turn may start from it. */
  lemma SavedHistoryIsPaired(messages: seq<Message>, response: Message)
    requires Paired(messages) && response.role.Assistant?
    ensures Paired(PersistedHistory(messages, response))
  {
    hide AnswersPrevious;
    WithoutSystemKeepsPairs(messages);
    PairedConcat(WithoutSystem(messages), [response]);
  }
}

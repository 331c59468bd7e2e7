/**
 * The Gemini variant of the bot (bot_gemini_free.py): its `MemorySystem`,
 * the prompt text `GeminiAIEngine.generate_response` assembles before it
 * calls the API, and the `AdvancedTelegramBot` handlers that touch memory.
 */
module GeminiBot {
  import opened Text
  import opened Memory
  import opened Chunking

  /** bot_gemini_free.py keeps at most 300 characters of every turn. */
  const ContentLimit: nat := 300
  /** `conversation_history[-6:]`: the turns written into a prompt. */
  const WindowSize: nat := 6

  const ContextHeader := "\n**User Context:**\n- Name: "

  /** The text `get_context` renders for a known user: name, counter, the
      last five topics and the last two questions. */
  function ContextBlock(p: Profile): (r: string)
    ensures ContextHeader + p.userName + "\n- Total Interactions: " <= r
  {
    var head := ContextHeader + p.userName + "\n- Total Interactions: ";
    head + ContextDetails(p)
  }

  /** Everything after the name: it opens with the counter in decimal. */
  function ContextDetails(p: Profile): (r: string)
    ensures NatToString(p.totalInteractions) <= r
  {
    var counter := NatToString(p.totalInteractions);
    counter + ProfileLines(p)
  }

  /** Topics, recent questions as `get_context` lists them. */
  function ProfileLines(p: Profile): string
  {
    "\n- Topics: " + (if p.topicsExplored != [] then Join(", ", KeepLast(p.topicsExplored, 5)) else "New user")
    + "\n- Recent Questions: " + (if p.questionsAsked != [] then ListRepr(KeepLast(p.questionsAsked, 2)) else "None")
    + "\n        "
  }

  class MemorySystem {
    var userMemories: map<int, Profile>
    var conversationHistory: map<int, seq<Entry>>
    var learningProgress: map<int, Progress>

    ghost predicate Valid()
      reads this
    {
      StoreOk(userMemories, conversationHistory, learningProgress, ContentLimit)
    }

    constructor ()
      ensures Valid()
      ensures userMemories == map[] && conversationHistory == map[] && learningProgress == map[]
    {
      userMemories := map[];
      conversationHistory := map[];
      learningProgress := map[];
    }

    /** `conversation_history.get(user_id, [])`. */
    function History(userId: int): seq<Entry>
      reads this
    {
      HistoryOf(conversationHistory, userId)
    }

    /** `initialize_user`: a first contact gets a fresh profile and a zero
        progress record; a known user is left exactly as they were. */
    method InitializeUser(userId: int, firstName: Option<string>, now: string)
      requires Valid()
      modifies this
      ensures Valid()
      ensures conversationHistory == old(conversationHistory)
      ensures userId in old(userMemories) ==>
        userMemories == old(userMemories) && learningProgress == old(learningProgress)
      ensures userId !in old(userMemories) ==>
        && userMemories == old(userMemories)[userId := NewProfile(firstName, now)]
        && learningProgress == old(learningProgress)[userId := ZeroProgress]
    {
      if userId !in userMemories {
        userMemories := userMemories[userId := NewProfile(firstName, now)];
        learningProgress := learningProgress[userId := ZeroProgress];
      }
    }

    /** `add_to_history`: append one turn whose content is cut to 300
        characters when longer, then keep only the last 50 turns. Works for
        any user, with or without a profile. */
    method AddToHistory(userId: int, role: string, content: string, topic: Option<string>, now: string)
      requires Valid()
      modifies this
      ensures Valid()
      ensures conversationHistory == old(conversationHistory)[userId :=
        AppendCapped(old(History(userId)), Entry(now, role, Prefix(content, ContentLimit), topic), HistoryCap)]
      ensures userMemories == old(userMemories) && learningProgress == old(learningProgress)
    {
      var stored := if |content| > ContentLimit then content[..ContentLimit] else content;
      assert stored == Prefix(content, ContentLimit);
      var entry := Entry(now, role, stored, topic);
      ghost var h0 := History(userId);
      var history := History(userId) + [entry];
      if |history| > HistoryCap {
        history := KeepLast(history, HistoryCap);
      }
      assert history == AppendCapped(h0, entry, HistoryCap);
      AppendKeepsHistoryOk(h0, entry, ContentLimit);
      StoreOkSetHistory(userMemories, conversationHistory, learningProgress, ContentLimit, userId, history);
      conversationHistory := conversationHistory[userId := history];
    }

    /** `get_context`: empty exactly for a user without a profile. */
    function GetContext(userId: int): (r: string)
      reads this
      ensures r == "" <==> userId !in userMemories
      ensures userId in userMemories ==> r == ContextBlock(userMemories[userId])
    {
      if userId !in userMemories then "" else ContextBlock(userMemories[userId])
    }

    /** `update_after_response`: nothing for an unknown user; otherwise one
        more interaction, the question cut to 50 characters appended with
        the list kept to its last 10, and a new non-empty topic appended. */
    method UpdateAfterResponse(userId: int, question: string, topic: Option<string>)
      requires Valid()
      modifies this
      ensures Valid()
      ensures userId !in old(userMemories) ==> userMemories == old(userMemories)
      ensures userId in old(userMemories) ==>
        userMemories == old(userMemories)[userId := Register(old(userMemories)[userId], question, topic)]
      ensures conversationHistory == old(conversationHistory) && learningProgress == old(learningProgress)
    {
      if userId !in userMemories {
        return;
      }
      var mem := userMemories[userId];
      var questions := mem.questionsAsked + [Prefix(question, QuestionLength)];
      var topics := mem.topicsExplored;
      if topic.Some? && topic.value != "" && topic.value !in topics {
        topics := topics + [topic.value];
      }
      questions := KeepLast(questions, QuestionCap);
      var updated := mem.(totalInteractions := mem.totalInteractions + 1,
                          questionsAsked := questions,
                          topicsExplored := topics);
      assert updated == Register(mem, question, topic);
      RegisterKeepsProfileOk(mem, question, topic);
      StoreOkSetProfile(userMemories, conversationHistory, learningProgress, ContentLimit, userId, updated);
      userMemories := userMemories[userId := updated];
    }
  }

  /** The first part of every prompt. */
  function SystemBlock(systemPrompt: string): string
  {
    "System Instructions:\n" + systemPrompt + "\n"
  }

  /** The part that carries `get_context`'s text, when there is any. */
  function BackgroundBlock(userContext: string): string
  {
    "User Background:\n" + userContext + "\n"
  }

  /** The last part: the new message. */
  function UserLine(userMessage: string): string
  {
    "User: " + userMessage
  }

  const UserTag := "User: "
  const AssistantTag := "Assistant: "

  /** One history turn as a prompt line. */
  function HistoryLine(e: Entry): string
  {
    (if e.role == "user" then UserTag else AssistantTag) + e.content
  }

  /** A history line is marked "User:" exactly for a `user` turn; every
      other role is written as the assistant's. */
  lemma HistoryLineLabel(e: Entry)
    ensures ("User: " <= HistoryLine(e)) <==> e.role == "user"
    ensures e.role != "user" ==> HistoryLine(e) == "Assistant: " + e.content
    ensures e.role == "user" ==> HistoryLine(e) == UserLine(e.content)
  {
    assert HistoryLine(e)[0] == (if e.role == "user" then 'U' else 'A');
  }

  function HistoryLines(es: seq<Entry>): (r: seq<string>)
    ensures |r| == |es|
    ensures forall i :: 0 <= i < |es| ==> r[i] == HistoryLine(es[i])
  {
    seq(|es|, i requires 0 <= i < |es| => HistoryLine(es[i]))
  }

  lemma HistoryLinesSnoc(head: seq<string>, es: seq<Entry>, i: nat)
    requires i < |es|
    ensures head + HistoryLines(es[..i + 1]) == head + HistoryLines(es[..i]) + [HistoryLine(es[i])]
  {
    assert HistoryLines(es[..i + 1]) == HistoryLines(es[..i]) + [HistoryLine(es[i])];
    AppendAssoc(head, HistoryLines(es[..i]), [HistoryLine(es[i])]);
  }

  /** The parts `generate_response` collects in `context_messages`: the
      system block first, the background block exactly when the context is
      non-empty, one line per turn of the last six (oldest first), and the
      new message last. */
  function PromptParts(userMessage: string, history: seq<Entry>, userContext: string,
                       systemPrompt: string): seq<string>
  {
    PromptHead(userContext, systemPrompt) + HistoryLines(KeepLast(history, WindowSize)) + [UserLine(userMessage)]
  }

  function PromptHead(userContext: string, systemPrompt: string): (r: seq<string>)
    ensures |r| == HeadSize(userContext)
    ensures r[0] == SystemBlock(systemPrompt)
    ensures userContext != "" ==> r[1] == BackgroundBlock(userContext)
  {
    [SystemBlock(systemPrompt)] + (if userContext != "" then [BackgroundBlock(userContext)] else [])
  }

  lemma PromptPartsShape(userMessage: string, history: seq<Entry>, userContext: string, systemPrompt: string)
    ensures var r := PromptParts(userMessage, history, userContext, systemPrompt);
      && |r| == HeadSize(userContext) + Min(|history|, WindowSize) + 1
      && r[0] == SystemBlock(systemPrompt)
      && (userContext != "" ==> r[1] == BackgroundBlock(userContext))
      && r[|r| - 1] == UserLine(userMessage)
  {
    var head := PromptHead(userContext, systemPrompt);
    var lines := HistoryLines(KeepLast(history, WindowSize));
    PartsIndex(head, lines, UserLine(userMessage));
  }

  /** Between the head and the new message come the last six turns, oldest
      first, each as its prompt line: part `i` is the line of the turn as
      far from the end of the history as the part is from the new message. */
  lemma PromptPartsAt(userMessage: string, history: seq<Entry>, userContext: string, systemPrompt: string, i: int)
    requires HeadSize(userContext) <= i < |PromptParts(userMessage, history, userContext, systemPrompt)| - 1
    ensures var r := PromptParts(userMessage, history, userContext, systemPrompt);
      r[i] == HistoryLine(history[|history| - (|r| - 1) + i])
  {
    var head := PromptHead(userContext, systemPrompt);
    var recent := KeepLast(history, WindowSize);
    var lines := HistoryLines(recent);
    PartsIndex(head, lines, UserLine(userMessage));
    var k := i - |head|;
    KeepLastIndex(history, WindowSize, k);
  }

  /** When the newest stored turn is the user's, the prompt ends with that
      turn's line followed by the new message's line. */
  lemma PromptEndsWithTurn(userMessage: string, history: seq<Entry>, userContext: string, systemPrompt: string,
                            newest: string)
    requires |history| >= 1 && history[|history| - 1].role == "user"
    requires history[|history| - 1].content == newest
    ensures EndsWith(Join("\n", PromptParts(userMessage, history, userContext, systemPrompt)),
                     UserLine(newest) + "\n" + UserLine(userMessage))
  {
    var parts := PromptParts(userMessage, history, userContext, systemPrompt);
    PromptPartsShape(userMessage, history, userContext, systemPrompt);
    PromptPartsAt(userMessage, history, userContext, systemPrompt, |parts| - 2);
    HistoryLineLabel(history[|history| - 1]);
    JoinEndsWith("\n", parts);
  }

  /** Where each piece of `head + lines + [last]` sits. */
  lemma PartsIndex(head: seq<string>, lines: seq<string>, last: string)
    ensures var r := head + lines + [last];
      && |r| == |head| + |lines| + 1
      && (forall i :: 0 <= i < |head| ==> r[i] == head[i])
      && (forall i :: |head| <= i < |r| - 1 ==> r[i] == lines[i - |head|])
      && r[|r| - 1] == last
  {
  }

  /** How many parts come before the history lines. */
  function HeadSize(userContext: string): nat
  {
    if userContext == "" then 1 else 2
  }

  /** The assembled prompt starts with the system block and ends with the
      new message on a line of its own. */
  lemma PromptFrame(userMessage: string, history: seq<Entry>, userContext: string, systemPrompt: string)
    ensures var prompt := Join("\n", PromptParts(userMessage, history, userContext, systemPrompt));
      && SystemBlock(systemPrompt) <= prompt
      && EndsWith(prompt, "\n" + UserLine(userMessage))
  {
    var parts := PromptParts(userMessage, history, userContext, systemPrompt);
    JoinEndsWith("\n", parts);
  }

  /** What the completion call gives back: the reply's `text` (possibly
      empty), or the exception that `generate_content` or reading the text
      raised. */
  datatype Outcome = Completed(text: string) | Failed(detail: string)

  const ErrorMark := "\U{274C} "
  const ErrorPrefix := ErrorMark + "Error: "
  const EmptyReply := "Maaf kijiye, response generate nahi ho saka."

  /** `generate_response`'s return value: the generated text, a fixed
      apology for an empty text, or an error text embedding the reason. */
  function ReplyText(outcome: Outcome): (r: string)
    ensures outcome.Completed? && outcome.text != "" ==> r == outcome.text
    ensures outcome.Completed? && outcome.text == "" ==> r == EmptyReply
    ensures outcome.Failed? ==> ErrorPrefix + outcome.detail <= r
    ensures r != ""
  {
    match outcome
    case Completed(text) => if text != "" then text else EmptyReply
    case Failed(detail) =>
      ErrorPrefix + detail + "\n\nKripya baad mein try kijiye. Agar issue persist kare to API key check karo."
  }

  /** `GeminiAIEngine.generate_response` up to the API call: the prompt text
      and the text returned for `outcome`. */
  method GenerateResponse(userMessage: string, conversationHistory: seq<Entry>,
                          userContext: string, systemPrompt: string, outcome: Outcome)
    returns (prompt: string, response: string)
    ensures prompt == Join("\n", PromptParts(userMessage, conversationHistory, userContext, systemPrompt))
    ensures response == ReplyText(outcome)
  {
    var contextMessages := [SystemBlock(systemPrompt)];
    if userContext != "" {
      contextMessages := contextMessages + [BackgroundBlock(userContext)];
    }
    ghost var head := contextMessages;
    var recent := KeepLast(conversationHistory, WindowSize);
    for i := 0 to |recent|
      invariant contextMessages == head + HistoryLines(recent[..i])
    {
      HistoryLinesSnoc(head, recent, i);
      var roleText := if recent[i].role == "user" then "User" else "Assistant";
      var line := roleText + ": " + recent[i].content;
      assert line == HistoryLine(recent[i]) by {
        assert roleText + ": " == if recent[i].role == "user" then UserTag else AssistantTag;
      }
      contextMessages := contextMessages + [line];
    }
    assert recent[..|recent|] == recent;
    contextMessages := contextMessages + [UserLine(userMessage)];
    prompt := Join("\n", contextMessages);
    response := ReplyText(outcome);
  }

  /** The memory-facing part of `AdvancedTelegramBot`. */
  class TelegramBot {
    const memory: MemorySystem

    constructor ()
      ensures fresh(memory) && memory.Valid()
      ensures memory.userMemories == map[] && memory.conversationHistory == map[]
      ensures memory.learningProgress == map[]
    {
      memory := new MemorySystem();
    }

    /** `start_command`: make sure the user has a profile. */
    method StartCommand(userId: int, firstName: Option<string>, now: string)
      requires memory.Valid()
      modifies memory
      ensures memory.Valid()
      ensures memory.conversationHistory == old(memory.conversationHistory)
      ensures userId in old(memory.userMemories) ==>
        memory.userMemories == old(memory.userMemories) && memory.learningProgress == old(memory.learningProgress)
      ensures userId !in old(memory.userMemories) ==>
        && memory.userMemories == old(memory.userMemories)[userId := NewProfile(firstName, now)]
        && memory.learningProgress == old(memory.learningProgress)[userId := ZeroProgress]
    {
      memory.InitializeUser(userId, firstName, now);
    }

    /** `clear_command`: the user's history becomes empty; profile and
        progress stay as they were. */
    method ClearCommand(userId: int)
      requires memory.Valid()
      modifies memory
      ensures memory.Valid()
      ensures memory.conversationHistory == old(memory.conversationHistory)[userId := []]
      ensures memory.History(userId) == []
      ensures memory.userMemories == old(memory.userMemories)
      ensures memory.learningProgress == old(memory.learningProgress)
    {
      memory.conversationHistory := memory.conversationHistory[userId := []];
    }

    /** The bookkeeping `handle_message` does before it asks the engine:
        make sure of a profile, record the user's turn (cut to the content
        limit) and count the interaction. */
    method RecordQuestion(userId: int, firstName: Option<string>, messageText: string,
                          createdAt: string, userAt: string)
      requires memory.Valid()
      modifies memory
      ensures memory.Valid()
      ensures userId in memory.userMemories
      ensures
        var before := if userId in old(memory.userMemories) then old(memory.userMemories[userId])
                      else NewProfile(firstName, createdAt);
        memory.userMemories == old(memory.userMemories)[userId := Register(before, messageText, None)]
      ensures userId in old(memory.userMemories) ==> memory.learningProgress == old(memory.learningProgress)
      ensures userId !in old(memory.userMemories) ==>
        memory.learningProgress == old(memory.learningProgress)[userId := ZeroProgress]
      ensures memory.conversationHistory == old(memory.conversationHistory)[userId :=
        AppendCapped(old(memory.History(userId)), Entry(userAt, "user", Prefix(messageText, ContentLimit), None), HistoryCap)]
    {
      ghost var profiles0, histories0 := memory.userMemories, memory.conversationHistory;
      ghost var before := if userId in profiles0 then profiles0[userId] else NewProfile(firstName, createdAt);
      if userId !in memory.userMemories {
        memory.InitializeUser(userId, firstName, createdAt);
      }
      assert memory.userMemories == profiles0[userId := before];
      memory.AddToHistory(userId, "user", messageText, None, userAt);
      ghost var mid := memory.userMemories;
      assert userId in mid && mid[userId] == before;
      memory.UpdateAfterResponse(userId, messageText, None);
      UpdateTwice(profiles0, userId, before, Register(before, messageText, None));
    }

    /** `handle_message` without the transport: make sure of a profile,
        record the user's turn, count the interaction, build the context and
        the prompt, record the reply, and split it for sending. The three
        timestamps are the clock readings of the profile creation and of the
        two recorded turns. */
    method HandleMessage(userId: int, firstName: Option<string>, messageText: string,
                         createdAt: string, userAt: string, replyAt: string,
                         systemPrompt: string, outcome: Outcome)
      returns (prompt: string, response: string, sends: seq<string>)
      requires memory.Valid()
      modifies memory
      ensures memory.Valid()
      ensures userId in memory.userMemories
      ensures
        var before := if userId in old(memory.userMemories) then old(memory.userMemories[userId])
                      else NewProfile(firstName, createdAt);
        memory.userMemories == old(memory.userMemories)[userId := Register(before, messageText, None)]
      ensures userId in old(memory.userMemories) ==> memory.learningProgress == old(memory.learningProgress)
      ensures userId !in old(memory.userMemories) ==>
        memory.learningProgress == old(memory.learningProgress)[userId := ZeroProgress]
      ensures response == ReplyText(outcome)
      ensures
        var asked := AppendCapped(old(memory.History(userId)),
                                  Entry(userAt, "user", Prefix(messageText, ContentLimit), None), HistoryCap);
        // The context is never empty here, so the background block is always present.
        && prompt == Join("\n", PromptParts(messageText, asked, ContextBlock(memory.userMemories[userId]), systemPrompt))
        && memory.conversationHistory == old(memory.conversationHistory)[userId :=
             AppendCapped(asked, Entry(replyAt, "assistant", Prefix(response, ContentLimit), None), HistoryCap)]
      // The current message reaches the API twice: cut to 300 characters as
      // the newest history line, and then whole as the final line.
      ensures EndsWith(prompt, UserLine(Prefix(messageText, ContentLimit)) + "\n" + UserLine(messageText))
      ensures sends == Replies(response)
    {
      RecordQuestion(userId, firstName, messageText, createdAt, userAt);
      ghost var asked := memory.History(userId);
      var userContext := memory.GetContext(userId);
      var history := memory.History(userId);
      prompt, response := GenerateResponse(messageText, history, userContext, systemPrompt, outcome);
      assert history[|history| - 1] == Entry(userAt, "user", Prefix(messageText, ContentLimit), None);
      PromptEndsWithTurn(messageText, history, userContext, systemPrompt, Prefix(messageText, ContentLimit));
      assert memory.conversationHistory == old(memory.conversationHistory)[userId := asked];
      memory.AddToHistory(userId, "assistant", response, None, replyAt);
      UpdateTwice(old(memory.conversationHistory), userId, asked,
                  AppendCapped(asked, Entry(replyAt, "assistant", Prefix(response, ContentLimit), None), HistoryCap));
      sends := Replies(response);
    }
  }
}

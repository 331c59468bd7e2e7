/**
 * The Claude variant of the bot (bot.py): its `MemorySystem`, the request
 * `AdvancedAIEngine.generate_response` builds before it calls the API, and
 * the `AdvancedTelegramBot` handlers that touch memory.
 */
module ClaudeBot {
  import opened Text
  import opened Memory
  import opened Chunking

  /** bot.py stores `content[:200]` of every turn. */
  const ContentLimit: nat := 200
  /** `conversation_history[-6:]`: the turns sent with a request. */
  const WindowSize: nat := 6
  /** `history[-10:]`: the turns `get_conversation_summary` shows. */
  const SummaryWindow: nat := 10

  const ContextHeader := "\n**User Context:**\n- Name: "
  const SummaryHeader := "Recent conversation:\n"
  const NoConversation := "No previous conversation"

  /** The text `get_context` renders for a known user: name, counter, the
      last five topics, the last two questions and the learning pace. */
  function ContextBlock(p: Profile): (r: string)
    ensures ContextHeader + p.userName + "\n- Total Interactions: " <= r
  {
    var head := ContextHeader + p.userName + "\n- Total Interactions: ";
    head + ContextDetails(p)
  }

  /** Everything after the name: it opens with the counter in decimal. */
  function ContextDetails(p: Profile): (r: string)
    ensures NatToString(p.totalInteractions) <= r
  {
    var counter := NatToString(p.totalInteractions);
    counter + ProfileLines(p)
  }

  /** Topics, recent questions and pace as `get_context` lists them. */
  function ProfileLines(p: Profile): string
  {
    "\n- Topics: " + (if p.topicsExplored != [] then Join(", ", KeepLast(p.topicsExplored, 5)) else "New user")
    + "\n- Recent Questions: " + (if p.questionsAsked != [] then ListRepr(KeepLast(p.questionsAsked, 2)) else "None")
    + "\n- Learning Pace: " + p.learningPace
    + "\n        "
  }

  /** How `get_conversation_summary` names a role: "You" for `user`, and
      "Assistant" for every other role. */
  function Speaker(role: string): (r: string)
    ensures r == "You" <==> role == "user"
    ensures r != "You" ==> r == "Assistant"
  {
    if role == "user" then "You" else "Assistant"
  }

  /** One line of `get_conversation_summary`. */
  function SummaryLine(e: Entry): string
  {
    Speaker(e.role) + ": " + e.content + "...\n"
  }

  /** A summary line starts with "You: " exactly for a `user` turn; every
      other turn is shown as the assistant's. */
  lemma SummaryLineLabel(e: Entry)
    ensures ("You: " <= SummaryLine(e)) <==> e.role == "user"
    ensures e.role != "user" ==> "Assistant: " <= SummaryLine(e)
    ensures SummaryLine(e)[|SummaryLine(e)| - 4..] == "...\n"
  {
    assert SummaryLine(e)[0] == Speaker(e.role)[0];
  }

  function SummaryLines(es: seq<Entry>): (r: seq<string>)
    ensures |r| == |es|
    ensures forall i :: 0 <= i < |es| ==> r[i] == SummaryLine(es[i])
  {
    seq(|es|, i requires 0 <= i < |es| => SummaryLine(es[i]))
  }

  lemma SummaryLinesSnoc(es: seq<Entry>, i: nat)
    requires i < |es|
    ensures Concat(SummaryLines(es[..i + 1])) == Concat(SummaryLines(es[..i])) + SummaryLine(es[i])
  {
    assert SummaryLines(es[..i + 1]) == SummaryLines(es[..i]) + [SummaryLine(es[i])];
    ConcatSnoc(SummaryLines(es[..i]), SummaryLine(es[i]));
  }

  class MemorySystem {
    var userMemories: map<int, Profile>
    var conversationHistory: map<int, seq<Entry>>
    var learningProgress: map<int, Progress>

    ghost predicate Valid()
      reads this
    {
      StoreOk(userMemories, conversationHistory, learningProgress, ContentLimit)
    }

    constructor ()
      ensures Valid()
      ensures userMemories == map[] && conversationHistory == map[] && learningProgress == map[]
    {
      userMemories := map[];
      conversationHistory := map[];
      learningProgress := map[];
    }

    /** `conversation_history.get(user_id, [])`. */
    function History(userId: int): seq<Entry>
      reads this
    {
      HistoryOf(conversationHistory, userId)
    }

    /** `initialize_user`: a first contact gets a fresh profile and a zero
        progress record; a known user is left exactly as they were. */
    method InitializeUser(userId: int, firstName: Option<string>, now: string)
      requires Valid()
      modifies this
      ensures Valid()
      ensures conversationHistory == old(conversationHistory)
      ensures userId in old(userMemories) ==>
        userMemories == old(userMemories) && learningProgress == old(learningProgress)
      ensures userId !in old(userMemories) ==>
        && userMemories == old(userMemories)[userId := NewProfile(firstName, now)]
        && learningProgress == old(learningProgress)[userId := ZeroProgress]
      ensures userMemories[userId].totalInteractions == 0 || userId in old(userMemories)
    {
      if userId !in userMemories {
        userMemories := userMemories[userId := NewProfile(firstName, now)];
        learningProgress := learningProgress[userId := ZeroProgress];
      }
    }

    /** `add_to_history`: append one turn with its content cut to 200
        characters, then keep only the last 50 turns. Works for any user,
        with or without a profile. */
    method AddToHistory(userId: int, role: string, content: string, topic: Option<string>, now: string)
      requires Valid()
      modifies this
      ensures Valid()
      ensures conversationHistory == old(conversationHistory)[userId :=
        AppendCapped(old(History(userId)), Entry(now, role, Prefix(content, ContentLimit), topic), HistoryCap)]
      ensures userMemories == old(userMemories) && learningProgress == old(learningProgress)
    {
      var stored := Prefix(content, ContentLimit);
      var entry := Entry(now, role, stored, topic);
      ghost var h0 := History(userId);
      var history := History(userId) + [entry];
      if |history| > HistoryCap {
        history := KeepLast(history, HistoryCap);
      }
      assert history == AppendCapped(h0, entry, HistoryCap);
      AppendKeepsHistoryOk(h0, entry, ContentLimit);
      StoreOkSetHistory(userMemories, conversationHistory, learningProgress, ContentLimit, userId, history);
      conversationHistory := conversationHistory[userId := history];
    }

    /** `get_context`: empty exactly for a user without a profile. */
    function GetContext(userId: int): (r: string)
      reads this
      ensures r == "" <==> userId !in userMemories
      ensures userId in userMemories ==> r == ContextBlock(userMemories[userId])
    {
      if userId !in userMemories then "" else ContextBlock(userMemories[userId])
    }

    /** `update_after_response`: nothing for an unknown user; otherwise one
        more interaction, the question cut to 50 characters appended with
        the list kept to its last 10, and a new non-empty topic appended. */
    method UpdateAfterResponse(userId: int, question: string, topic: Option<string>)
      requires Valid()
      modifies this
      ensures Valid()
      ensures userId !in old(userMemories) ==> userMemories == old(userMemories)
      ensures userId in old(userMemories) ==>
        userMemories == old(userMemories)[userId := Register(old(userMemories)[userId], question, topic)]
      ensures conversationHistory == old(conversationHistory) && learningProgress == old(learningProgress)
    {
      if userId !in userMemories {
        return;
      }
      var mem := userMemories[userId];
      var questions := mem.questionsAsked + [Prefix(question, QuestionLength)];
      var topics := mem.topicsExplored;
      if topic.Some? && topic.value != "" && topic.value !in topics {
        topics := topics + [topic.value];
      }
      questions := KeepLast(questions, QuestionCap);
      var updated := mem.(totalInteractions := mem.totalInteractions + 1,
                          questionsAsked := questions,
                          topicsExplored := topics);
      assert updated == Register(mem, question, topic);
      RegisterKeepsProfileOk(mem, question, topic);
      StoreOkSetProfile(userMemories, conversationHistory, learningProgress, ContentLimit, userId, updated);
      userMemories := userMemories[userId := updated];
    }

    /** `get_conversation_summary`: a fixed text for an empty history,
        otherwise one line per turn of the last ten, oldest first. */
    method GetConversationSummary(userId: int) returns (summary: string)
      ensures History(userId) == [] ==> summary == NoConversation
      ensures History(userId) != [] ==>
        summary == SummaryHeader + Concat(SummaryLines(KeepLast(History(userId), SummaryWindow)))
    {
      var history := History(userId);
      if history == [] {
        return NoConversation;
      }
      var recent := KeepLast(history, SummaryWindow);
      summary := SummaryHeader;
      for i := 0 to |recent|
        invariant summary == SummaryHeader + Concat(SummaryLines(recent[..i]))
      {
        SummaryLinesSnoc(recent, i);
        AppendAssoc(SummaryHeader, Concat(SummaryLines(recent[..i])), SummaryLine(recent[i]));
        var role := if recent[i].role == "user" then "You" else "Assistant";
        assert role + ": " + recent[i].content + "...\n" == SummaryLine(recent[i]);
        summary := summary + (role + ": " + recent[i].content + "...\n");
      }
      assert recent[..|recent|] == recent;
    }
  }

  /** One element of the `messages` list sent to the Messages API. */
  datatype Turn = Turn(role: string, content: string)

  function TurnsOf(es: seq<Entry>): (r: seq<Turn>)
    ensures |r| == |es|
    ensures forall i :: 0 <= i < |es| ==> r[i] == Turn(es[i].role, es[i].content)
  {
    seq(|es|, i requires 0 <= i < |es| => Turn(es[i].role, es[i].content))
  }

  /** Turning entries into API messages one at a time, oldest first, builds
      the same list as turning the whole window at once. */
  lemma TurnsOfSnoc(es: seq<Entry>, i: nat)
    requires i < |es|
    ensures TurnsOf(es[..i + 1]) == TurnsOf(es[..i]) + [Turn(es[i].role, es[i].content)]
  {
    assert es[..i + 1][i] == es[i];
  }

  /** The turns `generate_response` sends: the last six history turns with
      role and content unchanged and in order, then the new message. */
  function Messages(userMessage: string, history: seq<Entry>): (r: seq<Turn>)
    ensures |r| == Min(|history|, WindowSize) + 1
    ensures forall i :: 0 <= i < |r| - 1 ==>
      var e := history[|history| - (|r| - 1) + i];
      r[i] == Turn(e.role, e.content)
    ensures r[|r| - 1] == Turn("user", userMessage)
  {
    TurnsOf(KeepLast(history, WindowSize)) + [Turn("user", userMessage)]
  }

  /** What the completion call gives back: the first text block of the
      reply, an `anthropic.APIError`, or any other exception together with
      its formatted traceback. */
  datatype Outcome = Completed(text: string) | ApiError(detail: string) | Unexpected(detail: string, trace: string)

  const ErrorMark := "\U{274C} "
  const ApiErrorPrefix := ErrorMark + "API Error: "
  const UnexpectedPrefix := ErrorMark + "Unexpected error: "

  /** `generate_response`'s return value: the generated text, or an error
      text that embeds the failure reason. */
  function ReplyText(outcome: Outcome): (r: string)
    ensures outcome.Completed? ==> r == outcome.text
    ensures outcome.ApiError? ==> ApiErrorPrefix + outcome.detail <= r
    ensures outcome.Unexpected? ==> UnexpectedPrefix + outcome.detail <= r
  {
    match outcome
    case Completed(text) => text
    case ApiError(detail) => ApiErrorPrefix + detail + "\n\nKripya baad mein try kijiye."
    case Unexpected(detail, trace) => UnexpectedPrefix + detail + "\n\n" + trace
  }

  /** `AdvancedAIEngine.generate_response` up to the API call: the request
      (message list and system text) and the text returned for `outcome`. */
  method GenerateResponse(userMessage: string, conversationHistory: seq<Entry>,
                          userContext: string, systemPrompt: string, outcome: Outcome)
    returns (messages: seq<Turn>, system: string, response: string)
    ensures messages == Messages(userMessage, conversationHistory)
    ensures system == systemPrompt + userContext
    ensures response == ReplyText(outcome)
  {
    messages := [];
    var recent := KeepLast(conversationHistory, WindowSize);
    for i := 0 to |recent|
      invariant messages == TurnsOf(recent[..i])
    {
      TurnsOfSnoc(recent, i);
      messages := messages + [Turn(recent[i].role, recent[i].content)];
    }
    assert recent[..|recent|] == recent;
    messages := messages + [Turn("user", userMessage)];
    system := systemPrompt + userContext;
    response := ReplyText(outcome);
  }

  /** The memory-facing part of `AdvancedTelegramBot`. */
  class TelegramBot {
    const memory: MemorySystem

    constructor ()
      ensures fresh(memory) && memory.Valid()
      ensures memory.userMemories == map[] && memory.conversationHistory == map[]
      ensures memory.learningProgress == map[]
    {
      memory := new MemorySystem();
    }

    /** `start_command`: make sure the user has a profile. */
    method StartCommand(userId: int, firstName: Option<string>, now: string)
      requires memory.Valid()
      modifies memory
      ensures memory.Valid()
      ensures memory.conversationHistory == old(memory.conversationHistory)
      ensures userId in old(memory.userMemories) ==>
        memory.userMemories == old(memory.userMemories) && memory.learningProgress == old(memory.learningProgress)
      ensures userId !in old(memory.userMemories) ==>
        && memory.userMemories == old(memory.userMemories)[userId := NewProfile(firstName, now)]
        && memory.learningProgress == old(memory.learningProgress)[userId := ZeroProgress]
    {
      memory.InitializeUser(userId, firstName, now);
    }

    /** `clear_command`: the user's history becomes empty; profile and
        progress stay as they were. */
    method ClearCommand(userId: int)
      requires memory.Valid()
      modifies memory
      ensures memory.Valid()
      ensures memory.conversationHistory == old(memory.conversationHistory)[userId := []]
      ensures memory.History(userId) == []
      ensures memory.userMemories == old(memory.userMemories)
      ensures memory.learningProgress == old(memory.learningProgress)
    {
      memory.conversationHistory := memory.conversationHistory[userId := []];
    }

    /** The bookkeeping `handle_message` does before it asks the engine:
        make sure of a profile, record the user's turn (cut to the content
        limit) and count the interaction. */
    method RecordQuestion(userId: int, firstName: Option<string>, messageText: string,
                          createdAt: string, userAt: string)
      requires memory.Valid()
      modifies memory
      ensures memory.Valid()
      ensures userId in memory.userMemories
      ensures
        var before := if userId in old(memory.userMemories) then old(memory.userMemories[userId])
                      else NewProfile(firstName, createdAt);
        memory.userMemories == old(memory.userMemories)[userId := Register(before, messageText, None)]
      ensures userId in old(memory.userMemories) ==> memory.learningProgress == old(memory.learningProgress)
      ensures userId !in old(memory.userMemories) ==>
        memory.learningProgress == old(memory.learningProgress)[userId := ZeroProgress]
      ensures memory.conversationHistory == old(memory.conversationHistory)[userId :=
        AppendCapped(old(memory.History(userId)), Entry(userAt, "user", Prefix(messageText, ContentLimit), None), HistoryCap)]
    {
      ghost var profiles0, histories0 := memory.userMemories, memory.conversationHistory;
      ghost var before := if userId in profiles0 then profiles0[userId] else NewProfile(firstName, createdAt);
      if userId !in memory.userMemories {
        memory.InitializeUser(userId, firstName, createdAt);
      }
      assert memory.userMemories == profiles0[userId := before];
      memory.AddToHistory(userId, "user", messageText, None, userAt);
      assert memory.History(userId) == AppendCapped(HistoryOf(histories0, userId),
                                   Entry(userAt, "user", Prefix(messageText, ContentLimit), None), HistoryCap);
      ghost var mid := memory.userMemories;
      assert userId in mid && mid[userId] == before;
      memory.UpdateAfterResponse(userId, messageText, None);
      assert memory.userMemories == mid[userId := Register(before, messageText, None)];
      UpdateTwice(profiles0, userId, before, Register(before, messageText, None));
    }

    /** `handle_message` without the transport: make sure of a profile,
        record the user's turn, count the interaction, build the context and
        the request, record the reply, and split it for sending. The three
        timestamps are the clock readings of the profile creation and of the
        two recorded turns. */
    method HandleMessage(userId: int, firstName: Option<string>, messageText: string,
                         createdAt: string, userAt: string, replyAt: string,
                         systemPrompt: string, outcome: Outcome)
      returns (messages: seq<Turn>, system: string, response: string, sends: seq<string>)
      requires memory.Valid()
      modifies memory
      ensures memory.Valid()
      ensures userId in memory.userMemories
      ensures
        var before := if userId in old(memory.userMemories) then old(memory.userMemories[userId])
                      else NewProfile(firstName, createdAt);
        memory.userMemories == old(memory.userMemories)[userId := Register(before, messageText, None)]
      ensures userId in old(memory.userMemories) ==> memory.learningProgress == old(memory.learningProgress)
      ensures userId !in old(memory.userMemories) ==>
        memory.learningProgress == old(memory.learningProgress)[userId := ZeroProgress]
      ensures system == systemPrompt + ContextBlock(memory.userMemories[userId])
      ensures response == ReplyText(outcome)
      ensures
        var asked := AppendCapped(old(memory.History(userId)),
                                  Entry(userAt, "user", Prefix(messageText, ContentLimit), None), HistoryCap);
        && messages == Messages(messageText, asked)
        && memory.conversationHistory == old(memory.conversationHistory)[userId :=
             AppendCapped(asked, Entry(replyAt, "assistant", Prefix(response, ContentLimit), None), HistoryCap)]
      // The current message reaches the API twice: cut to 200 characters as
      // the newest history turn, and then whole as the final turn.
      ensures |messages| >= 2
      ensures messages[|messages| - 2] == Turn("user", Prefix(messageText, ContentLimit))
      ensures messages[|messages| - 1] == Turn("user", messageText)
      ensures sends == Replies(response)
    {
      RecordQuestion(userId, firstName, messageText, createdAt, userAt);
      ghost var asked := memory.History(userId);
      var userContext := memory.GetContext(userId);
      var history := memory.History(userId);
      messages, system, response := GenerateResponse(messageText, history, userContext, systemPrompt, outcome);
      assert messages[|messages| - 2] == Turn(asked[|asked| - 1].role, asked[|asked| - 1].content);
      assert memory.conversationHistory == old(memory.conversationHistory)[userId := asked];
      memory.AddToHistory(userId, "assistant", response, None, replyAt);
      UpdateTwice(old(memory.conversationHistory), userId, asked,
                  AppendCapped(asked, Entry(replyAt, "assistant", Prefix(response, ContentLimit), None), HistoryCap));
      sends := Replies(response);
    }
  }
}

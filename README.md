# Telegram learning-assistant bot: memory and request assembly

This project models the core of a Telegram bot that answers programming
questions through a hosted language model. The repository ships the bot in
two variants: `bot.py`, which calls Claude, and `bot_gemini_free.py`, which
calls Gemini. The model covers what both variants share:

- the in-process `MemorySystem`. It keeps a profile per user, with a
  counter, the last ten questions cut to 50 characters, and duplicate-free
  topics. It keeps a conversation history of at most 50 turns per user,
  each turn's content cut to 200 characters (Claude) or 300 (Gemini). It
  also keeps a learning-progress record per user.
- how `generate_response` turns the memory into a request:
  - Claude: a list of role/content turns plus a system text;
  - Gemini: one prompt string joined with newlines.
- what it returns when the call fails.
- `handle_message`: its order of memory updates, and how it splits long
  replies into 4000-character messages.
- `start_command` and `clear_command`.

Layout:

- `text.dfy` (module `Text`): the Python built-ins the code relies on.
  These are slices (`s[:n]`, `s[-n:]`), `sep.join`, `"".join`, `str` of a
  counter, and `repr` of a list of strings.
- `memory.dfy` (module `Memory`): the records and the pure rules both
  `MemorySystem` classes apply. These are truncation, FIFO caps, topic
  de-duplication and the interaction counter. The module also holds the
  store invariant.
- `chunking.dfy` (module `Chunking`): the reply splitting in
  `handle_message`.
- `claude_bot.dfy` (module `ClaudeBot`) and `gemini_bot.dfy` (module
  `GeminiBot`): one file per variant. Each has:
  - a `MemorySystem` class whose methods update its three maps in place;
  - the request assembly, as a loop proved against a specification
    function;
  - a `TelegramBot` class with the handlers.

The clock readings, the language model's answer (or the exception it
raised) and `SYSTEM_PROMPT` are parameters.

## Model

| member | source | states |
|---|---|---|
| Text.Prefix | bot.py:121 | `s[:n]` has length `min(len(s), n)`, is the start of `s`, and is all of `s` when `s` is short enough |
| Text.KeepLast | bot.py:126-127 | for `n >= 1`, `s[-n:]` has length `min(len(s), n)`, is the end of `s`, and is all of `s` when `s` is short enough |
| Text.KeepLastIndex | bot.py:202 | the k-th element kept by `s[-n:]` is the element at the same distance from the end of `s` |
| Text.KeepLastAppend | bot.py:125-127 | cutting to the last n and then appending more keeps the same as cutting the whole to the last n |
| Text.Join | bot_gemini_free.py:221 | `sep.join(parts)` is empty for no parts; otherwise it begins with the first part and ends with the last |
| Text.EndsWithPrepend | bot_gemini_free.py:221 | putting text in front of a string keeps each of its suffixes |
| Text.JoinOneLine | bot.py:142 | joining one-line parts with a one-line separator gives one line |
| Text.JoinSnoc | bot_gemini_free.py:221 | `sep.join` of one more part is the old join, the separator and the new part |
| Text.EndsWithAppend | bot_gemini_free.py:221 | extending a string at the end extends each of its suffixes the same way |
| Text.JoinEndsWith | bot_gemini_free.py:221 | a join of two or more parts ends with the last two parts and the separator between them |
| Text.Concat | bot.py:170-173 | `"".join` of no parts is empty, of one part is that part, and otherwise begins with the first part |
| Text.ConcatSnoc | bot.py:172-173 | accumulating with `+=` gives the concatenation of everything appended, in order |
| Text.NatToString | bot.py:140 | `str(n)` is a non-empty string of decimal digits with no leading zero |
| Text.DecimalRoundTrip | bot.py:140 | reading the printed interaction counter back gives the counter |
| Text.EscapeChar | bot.py:142 | `repr` writes each character in at least one character and never as a raw line break |
| Text.Escaped | bot.py:142 | the escaped body is at least as long as the string and holds no raw line break |
| Text.StrRepr | bot.py:142 | `repr` of a question is enclosed in the same quote at both ends and stays on one line |
| Text.QuoteFor | bot.py:142 | `repr` delimits with `'` or `"`, and picks one that does not occur in the string unless the string holds both |
| Text.ListRepr | bot.py:142 | `repr` of the question list (each question through `StrRepr`, joined with ", " by `Join`) stays on one line |
| Text.ListReprShape | bot.py:142 | the list literal opens with `[` and closes with `]`, is `[]` for no questions, and shows the first question's literal right after `[` |
| Memory.DisplayName | bot.py:99 | `first_name or 'Friend'`: a missing or empty first name becomes "Friend", any other is kept; never empty |
| Memory.NewProfile | bot.py:98-107 | a new profile keeps the invariant and has the name `first_name or 'Friend'` (never empty), the given creation time, counter 0, no topics, no questions and the pace "adaptive" |
| Memory.HistoryOf | bot.py:164 | `conversation_history.get(user_id, [])`: the stored history, or the empty one for a user who never wrote (no contract; used by every history read) |
| Memory.AppendCapped | bot.py:118-127 | append-then-cap keeps `min(len+1, cap)` items, ends with the new item, and keeps only the newest items |
| Memory.AppendAllKeepsLast | bot.py:116-127 | after any number of appends, a capped list holds exactly the last `cap` items it ever received, in arrival order |
| Memory.HistoryIsLastEntries | bot.py:116-127 | a history started empty holds the last `min(50, n)` of the n turns recorded |
| Memory.AddTopic | bot.py:156-157 | a topic is added only when it is given, non-empty and new; nothing else changes; no topic ever appears twice |
| Memory.AddTopicIdempotent | bot.py:156-157 | offering the same topic again changes nothing |
| Memory.Register | bot.py:147-160 | `update_after_response` on a profile: counter +1, newest question is `question[:50]`, at most 10 questions, topics by `AddTopic`, and the name, creation time and pace kept |
| Memory.RegisterAllSteps | bot.py:147-160 | registering questions one by one feeds their truncations into the capped list one by one and adds one to the counter for each |
| Memory.RegisterAllCounts | bot.py:147-160 | after n interactions the counter has grown by n, the questions are the last ten truncations (`TruncatedQuestions`) in order, and the topics and name are unchanged |
| Memory.RegisterKeepsProfileOk | bot.py:153-160 | `update_after_response` keeps a profile within ten questions of at most 50 characters with no topic repeated |
| Memory.AppendKeepsHistoryOk | bot.py:116-127 | `add_to_history` keeps a history within 50 turns of bounded content |
| Chunking.Chunks | bot.py:433 | `response[i:i+4000]` over `range(0, len, 4000)`: `ceil(len/4000)` non-empty slices of at most 4000 characters, all but the last exactly 4000 |
| Chunking.ChunksUnfold | bot.py:433 | a reply longer than 4000 characters splits into its first 4000 characters followed by the slices of the rest |
| Chunking.ChunksConcat | bot.py:433 | joining the slices gives back the reply exactly, so nothing is lost, repeated or reordered |
| Chunking.Replies | bot.py:431-441 | at least one message is sent; each has at most 4000 characters; together they spell the reply in order; a short reply goes out whole |
| Chunking.RepliesAreChunks | bot.py:431-441 | for a non-empty reply, the `len > 4000` test changes nothing: the reply is sent as exactly its slices |
| ClaudeBot.ContextBlock | bot.py:135-144 | the context text starts with the header, the user's name and the interaction label |
| ClaudeBot.ContextDetails | bot.py:140-144 | the text after the name opens with the interaction counter written in decimal by `NatToString` |
| ClaudeBot.ProfileLines | bot.py:141-144 | the topics, recent questions and pace lines (no contract; rendered with `Join`, `KeepLast` and `ListRepr`) |
| ClaudeBot.Speaker | bot.py:172 | a turn is labelled "You" exactly when its role is `user`, and "Assistant" otherwise |
| ClaudeBot.SummaryLine | bot.py:173 | one summary line: the speaker, the content and "...\n" (no contract; its shape is `SummaryLineLabel`) |
| ClaudeBot.SummaryLineLabel | bot.py:171-173 | a summary line starts with "You: " exactly for a `user` turn, with "Assistant: " otherwise, and ends with "...\n" |
| ClaudeBot.SummaryLinesSnoc | bot.py:171-173 | one more turn adds its line at the end of the summary |
| ClaudeBot.MemorySystem.constructor | bot.py:90-93 | the three maps start empty and the store invariant holds |
| ClaudeBot.MemorySystem.InitializeUser | bot.py:95-114 | a new user gets a fresh profile and a zero progress record; a known user's state stays as it was; the history is untouched |
| ClaudeBot.MemorySystem.AddToHistory | bot.py:116-127 | the user's history gains one turn with `content[:200]`, capped to the last 50; profiles and progress unchanged; works for a user without a profile |
| ClaudeBot.MemorySystem.GetContext | bot.py:129-145 | empty exactly when the user has no profile; otherwise the rendered profile |
| ClaudeBot.MemorySystem.UpdateAfterResponse | bot.py:147-160 | for an unknown user nothing changes; otherwise only that user's profile, which becomes `Register` of the old one |
| ClaudeBot.MemorySystem.GetConversationSummary | bot.py:162-175 | "No previous conversation" for an empty history; otherwise the header followed by one line (`SummaryLines`) for each of the last ten turns, oldest first |
| ClaudeBot.TurnsOfSnoc | bot.py:202-206 | turning turns into API messages one at a time, oldest first, gives the same list as turning the whole window at once |
| ClaudeBot.Messages | bot.py:199-212 | through `TurnsOf`, the request holds the last `min(6, len)` history turns in order, followed by the new message as a `user` turn |
| ClaudeBot.ReplyText | bot.py:225-232 | the generated text on success; otherwise an error text that starts with the error kind and embeds the reason |
| ClaudeBot.GenerateResponse | bot.py:188-232 | the loop builds exactly `Messages`; the system text is the prompt followed by the context; the reply is `ReplyText` |
| ClaudeBot.TelegramBot.constructor | bot.py:245 | the bot starts with an empty, well-formed memory |
| ClaudeBot.TelegramBot.StartCommand | bot.py:249-252 | `/start` ensures a profile exactly as `initialize_user` does |
| ClaudeBot.TelegramBot.ClearCommand | bot.py:459-462 | the user's history becomes empty; profiles, progress and other users' histories are unchanged |
| ClaudeBot.TelegramBot.RecordQuestion | bot.py:401-411 | a profile now exists; the user's turn is recorded cut to 200 characters; the interaction is counted on the profile the user has after initialisation |
| ClaudeBot.TelegramBot.HandleMessage | bot.py:395-441 | the handler's full effect on memory, the exact request, and the messages sent. The new message reaches the API twice: cut to 200 characters as the newest history turn, and whole as the final turn |
| GeminiBot.ContextBlock | bot_gemini_free.py:156-162 | the context text starts with the header, the user's name and the interaction label |
| GeminiBot.ContextDetails | bot_gemini_free.py:159-162 | the text after the name opens with the interaction counter written in decimal by `NatToString` |
| GeminiBot.ProfileLines | bot_gemini_free.py:160-162 | the topics and recent questions lines (no contract; rendered with `Join`, `KeepLast` and `ListRepr`) |
| GeminiBot.SystemBlock | bot_gemini_free.py:206 | the system instructions part (no contract; its place in the prompt is `PromptPartsShape` and `PromptFrame`) |
| GeminiBot.BackgroundBlock | bot_gemini_free.py:209-210 | the user background part (no contract; `PromptPartsShape` says it is present exactly when there is context) |
| GeminiBot.HistoryLine | bot_gemini_free.py:214-215 | one history turn as a prompt line (no contract; its label is `HistoryLineLabel`) |
| GeminiBot.UserLine | bot_gemini_free.py:218 | the new message's line, `User: ` and the message (no contract; `PromptFrame` puts it last) |
| GeminiBot.HistoryLineLabel | bot_gemini_free.py:213-215 | a prompt line starts with "User: " exactly for a `user` turn; other roles are written as "Assistant: " |
| GeminiBot.HistoryLinesSnoc | bot_gemini_free.py:213-215 | one more turn adds its line after the lines so far |
| GeminiBot.PromptParts | bot_gemini_free.py:203-218 | the list of prompt parts: `PromptHead`, then one `HistoryLine` for each of the last six turns, then `UserLine` (no contract; its shape is `PromptPartsShape` and `PromptPartsAt`) |
| GeminiBot.PromptHead | bot_gemini_free.py:205-210 | one part without context and two with it; the system block comes first, and the background block second whenever the context is non-empty |
| GeminiBot.PromptPartsShape | bot_gemini_free.py:202-218 | the parts: system block first; background block exactly when there is context; `min(6, len)` history lines; the new message last |
| GeminiBot.PromptPartsAt | bot_gemini_free.py:212-215 | each history part (built by `HistoryLines`) is the line of the turn at the same distance from the end of the history |
| GeminiBot.PartsIndex | bot_gemini_free.py:202-218 | where each piece of the collected parts sits |
| GeminiBot.PromptEndsWithTurn | bot_gemini_free.py:202-221 | when the newest stored turn is the user's, the prompt ends with that turn's line, a newline and the new message's line |
| GeminiBot.PromptFrame | bot_gemini_free.py:202-221 | the prompt starts with the system block and ends with the new message on its own line |
| GeminiBot.ReplyText | bot_gemini_free.py:232-236 | the reply text when non-empty; a fixed apology when empty; otherwise an error text that embeds the reason |
| GeminiBot.GenerateResponse | bot_gemini_free.py:192-236 | the loop builds exactly the newline join of `PromptParts`; the reply is `ReplyText` |
| GeminiBot.MemorySystem.constructor | bot_gemini_free.py:112-115 | the three maps start empty and the store invariant holds |
| GeminiBot.MemorySystem.InitializeUser | bot_gemini_free.py:117-134 | a new user gets a fresh profile and a zero progress record; a known user's state stays as it was |
| GeminiBot.MemorySystem.AddToHistory | bot_gemini_free.py:136-147 | the user's history gains one turn with at most 300 characters of content, capped to the last 50; nothing else changes |
| GeminiBot.MemorySystem.GetContext | bot_gemini_free.py:149-163 | empty exactly when the user has no profile; otherwise the rendered profile |
| GeminiBot.MemorySystem.UpdateAfterResponse | bot_gemini_free.py:165-177 | for an unknown user nothing changes; otherwise only that user's profile, which becomes `Register` of the old one |
| GeminiBot.TelegramBot.constructor | bot_gemini_free.py:249 | the bot starts with an empty, well-formed memory |
| GeminiBot.TelegramBot.StartCommand | bot_gemini_free.py:253-256 | `/start` ensures a profile exactly as `initialize_user` does |
| GeminiBot.TelegramBot.ClearCommand | bot_gemini_free.py:430-433 | the user's history becomes empty; everything else is unchanged |
| GeminiBot.TelegramBot.RecordQuestion | bot_gemini_free.py:383-393 | a profile now exists; the user's turn is recorded cut to 300 characters; the interaction is counted |
| GeminiBot.TelegramBot.HandleMessage | bot_gemini_free.py:377-421 | the handler's full effect on memory and the exact prompt, which always has the background block. The prompt ends with the message cut to 300 characters, then the whole message. The messages sent are as `Replies` |

Across all methods, each `MemorySystem` keeps `Valid()` (`Memory.StoreOk`), so every reachable store satisfies it:
- every profile has at most ten questions, each of at most 50 characters, and no topic twice;
- every history has at most 50 turns, each within the variant's content limit;
- a user has a progress record exactly when they have a profile.

## Left out

- Telegram transport: the typing indicator, `reply_text`, Markdown parse mode, the 0.5 s pause between chunks, and the channel notification with its 50-character summary. All are I/O. The model's handler returns the list of messages it would send.
- The channel posts: `/start`'s "New user joined" notice (bot.py:280-288) and `channel_command` (bot.py:469-483). They only send messages and touch no memory.
- Logging: `logger.error` on a failed model call (bot.py:228 and 231, bot_gemini_free.py:235) and on channel failures, and `logger.info` after each reply is sent (bot_gemini_free.py:423). It is output only.
- The model API calls (`messages.create`, `generate_content`), `max_tokens`, `temperature` and model names. They are foreign calls. Their result is the `Outcome` parameter: the text, an API error or another exception's message and traceback.
- `datetime.now()`. Timestamps are string parameters: the profile creation time and the time of each of the two recorded turns.
- `SYSTEM_PROMPT`'s text. It is a parameter.
- The welcome, help and status texts, `status_command`, `help_command`, `error_handler`, `setup_handlers`, `run`, `stop` and `main`. These are presentation and process lifecycle, not memory or request logic.
- `coding_skills` and `preferences` in bot.py's profile. They are created empty and never read or updated.
- `learning_pace` is the constant "adaptive". `learning_progress` values are never updated after being created as zeros.
- The outer `except` of `handle_message`. The modelled steps raise nothing once the model call's failure is an `Outcome`, so only transport failures could reach it, and the transport is left out.
- Concurrency. Handlers run one at a time on one `MemorySystem`.
- bot.py's `get_context` reads the history at line 135 and never uses it. The read has no effect, so the model leaves it out.
- Text.StrRepr, Text.EscapeChar and Text.Escaped: only `\\`, the chosen quote, `\n`, `\r`, `\t` and ASCII control characters are escaped. Python's `repr` also escapes non-printable non-ASCII characters, which this model writes as they are.
- Text.NatToString is not proved to match Python's `str` digit by digit. Its contract states the digit form, and `DecimalRoundTrip` shows it denotes the counter.
- The handler never passes a topic, so `topics_explored` stays empty in practice. `UpdateAfterResponse` and `AddTopic` still model the topic branch.

`add_to_history` works for a user who has no profile, because the history is a `defaultdict`. The model does not require a profile first.

For a string, `topic` and `first_name` count as present only when they are non-empty, as Python's truthiness rules say.

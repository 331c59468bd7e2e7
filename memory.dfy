/**
 * The per-user memory both bot variants keep: profiles, bounded
 * conversation histories and the learning-progress record, with the pure
 * rules their `MemorySystem` classes apply (truncation, FIFO caps,
 * duplicate-free topics, the interaction counter).
 */
module Memory {
  import opened Text

  datatype Option<T> = None | Some(value: T)

  /** One stored turn of `conversation_history`. The timestamp is the
      `datetime.now().isoformat()` text, taken as an opaque input. */
  datatype Entry = Entry(timestamp: string, role: string, content: string, topic: Option<string>)

  /** One value of `user_memories`. */
  datatype Profile = Profile(
    userName: string,
    createdAt: string,
    totalInteractions: nat,
    topicsExplored: seq<string>,
    questionsAsked: seq<string>,
    learningPace: string)

  /** One value of `learning_progress`: five percentages, never updated. */
  datatype Progress = Progress(python: nat, javascript: nat, apis: nat, databases: nat, deployment: nat)

  const HistoryCap: nat := 50
  const QuestionCap: nat := 10
  const QuestionLength: nat := 50
  const DefaultName := "Friend"
  const DefaultPace := "adaptive"
  const ZeroProgress := Progress(0, 0, 0, 0, 0)

  /** `user.first_name or 'Friend'`: a missing or empty first name falls back. */
  function DisplayName(firstName: Option<string>): (r: string)
    ensures r != ""
    ensures firstName.Some? && firstName.value != "" ==> r == firstName.value
    ensures firstName.None? || firstName.value == "" ==> r == DefaultName
  {
    if firstName.Some? && firstName.value != "" then firstName.value else DefaultName
  }

  /** The profile `initialize_user` creates for a first contact. */
  function NewProfile(firstName: Option<string>, createdAt: string): (r: Profile)
    ensures ProfileOk(r) && r.userName == DisplayName(firstName) && r.userName != ""
    ensures r.createdAt == createdAt && r.learningPace == DefaultPace
    ensures r.totalInteractions == 0 && r.topicsExplored == [] && r.questionsAsked == []
  {
    Profile(DisplayName(firstName), createdAt, 0, [], [], DefaultPace)
  }

  /** `conversation_history.get(user_id, [])`: the history is a defaultdict,
      so a user who never wrote has the empty history. */
  function HistoryOf(histories: map<int, seq<Entry>>, userId: int): seq<Entry>
  {
    if userId in histories then histories[userId] else []
  }

  /** Writing a key twice keeps only the second write. */
  lemma UpdateTwice<K, V>(m: map<K, V>, k: K, a: V, b: V)
    ensures m[k := a][k := b] == m[k := b]
  {
  }

  /** `xs.append(x)` followed by `xs = xs[-cap:]`: FIFO eviction. */
  function AppendCapped<T>(xs: seq<T>, x: T, cap: nat): (r: seq<T>)
    requires 0 < cap
    ensures |r| == Min(|xs| + 1, cap)
    ensures r[|r| - 1] == x
    ensures r == (xs + [x])[|xs| + 1 - |r|..]
  {
    KeepLast(xs + [x], cap)
  }

  /** Appending the items of `xs` one at a time, each with eviction. */
  function AppendAllCapped<T>(s: seq<T>, xs: seq<T>, cap: nat): seq<T>
    requires 0 < cap
    decreases |xs|
  {
    if xs == [] then s else AppendAllCapped(AppendCapped(s, xs[0], cap), xs[1..], cap)
  }

  /** However many items are appended, a capped sequence holds exactly the
      last `cap` of everything it ever received, in arrival order. */
  lemma {:induction false} AppendAllKeepsLast<T>(s: seq<T>, xs: seq<T>, cap: nat)
    requires 0 < cap && |s| <= cap
    ensures AppendAllCapped(s, xs, cap) == KeepLast(s + xs, cap)
    decreases |xs|
  {
    if xs != [] {
      var x, rest := xs[0], xs[1..];
      var s' := AppendCapped(s, x, cap);
      assert s' == KeepLast(s + [x], cap);
      AppendAllKeepsLast(s', rest, cap);
      KeepLastAppend(s + [x], rest, cap);
      AppendAssoc(s, [x], rest);
      assert [x] + rest == xs;
      assert (s + [x]) + rest == s + xs;
    }
  }

  /** Starting from an empty history, the stored history is the last
      `min(50, n)` of the `n` entries recorded. */
  lemma {:induction false} HistoryIsLastEntries(es: seq<Entry>)
    ensures AppendAllCapped([], es, HistoryCap) == KeepLast(es, HistoryCap)
  {
    assert [] + es == es;
    AppendAllKeepsLast([], es, HistoryCap);
  }

  ghost predicate NoDuplicates(xs: seq<string>)
  {
    forall i, j :: 0 <= i < j < |xs| ==> xs[i] != xs[j]
  }

  /** `if topic and topic not in topics_explored: topics_explored.append(topic)`. */
  function AddTopic(topics: seq<string>, topic: Option<string>): (r: seq<string>)
    ensures forall t :: t in r <==> t in topics || (topic == Some(t) && t != "")
    ensures r == topics || (topic.Some? && r == topics + [topic.value])
    ensures NoDuplicates(topics) ==> NoDuplicates(r)
  {
    if topic.Some? && topic.value != "" && topic.value !in topics then topics + [topic.value] else topics
  }

  /** Offering a topic a second time changes nothing. */
  lemma AddTopicIdempotent(topics: seq<string>, topic: Option<string>)
    ensures AddTopic(AddTopic(topics, topic), topic) == AddTopic(topics, topic)
  {
  }

  /** The profile after `update_after_response` on an existing user. */
  function Register(p: Profile, question: string, topic: Option<string>): (r: Profile)
    ensures r.totalInteractions == p.totalInteractions + 1
    ensures |r.questionsAsked| == Min(|p.questionsAsked| + 1, QuestionCap)
    ensures r.questionsAsked[|r.questionsAsked| - 1] == Prefix(question, QuestionLength)
    ensures r.topicsExplored == AddTopic(p.topicsExplored, topic)
    ensures r.userName == p.userName && r.createdAt == p.createdAt && r.learningPace == p.learningPace
  {
    p.(totalInteractions := p.totalInteractions + 1,
       questionsAsked := AppendCapped(p.questionsAsked, Prefix(question, QuestionLength), QuestionCap),
       topicsExplored := AddTopic(p.topicsExplored, topic))
  }

  /** The questions as `question[:50]` stores them. */
  function TruncatedQuestions(questions: seq<string>): (r: seq<string>)
    ensures |r| == |questions|
    ensures forall i :: 0 <= i < |r| ==> r[i] == Prefix(questions[i], QuestionLength)
  {
    seq(|questions|, i requires 0 <= i < |questions| => Prefix(questions[i], QuestionLength))
  }

  /** The profile after one `update_after_response` per question, without
      topics (the message handler never passes one). */
  function RegisterAll(p: Profile, questions: seq<string>): Profile
    decreases |questions|
  {
    if questions == [] then p else RegisterAll(Register(p, questions[0], None), questions[1..])
  }

  /** Registering questions one by one feeds their truncations, one by one,
      into the capped question list, and leaves everything else but the
      counter alone. */
  lemma {:induction false} RegisterAllSteps(p: Profile, questions: seq<string>)
    ensures RegisterAll(p, questions).totalInteractions == p.totalInteractions + |questions|
    ensures RegisterAll(p, questions).questionsAsked
         == AppendAllCapped(p.questionsAsked, TruncatedQuestions(questions), QuestionCap)
    ensures RegisterAll(p, questions).topicsExplored == p.topicsExplored
    ensures RegisterAll(p, questions).userName == p.userName
    decreases |questions|
  {
    if questions != [] {
      var p' := Register(p, questions[0], None);
      RegisterAllSteps(p', questions[1..]);
      var ts := TruncatedQuestions(questions);
      assert ts[0] == Prefix(questions[0], QuestionLength);
      assert ts[1..] == TruncatedQuestions(questions[1..]);
    }
  }

  /** After `n` interactions the counter has grown by exactly `n`, the
      question list is the last ten truncated questions in order, and the
      topics are untouched. */
  lemma RegisterAllCounts(p: Profile, questions: seq<string>)
    requires |p.questionsAsked| <= QuestionCap
    ensures RegisterAll(p, questions).totalInteractions == p.totalInteractions + |questions|
    ensures RegisterAll(p, questions).questionsAsked
         == KeepLast(p.questionsAsked + TruncatedQuestions(questions), QuestionCap)
    ensures RegisterAll(p, questions).topicsExplored == p.topicsExplored
    ensures RegisterAll(p, questions).userName == p.userName
  {
    RegisterAllSteps(p, questions);
    AppendAllKeepsLast(p.questionsAsked, TruncatedQuestions(questions), QuestionCap);
  }

  /** What every profile of a store keeps: at most ten questions of at most
      fifty characters, and no topic twice. */
  ghost predicate ProfileOk(p: Profile)
  {
    && |p.questionsAsked| <= QuestionCap
    && (forall i :: 0 <= i < |p.questionsAsked| ==> |p.questionsAsked[i]| <= QuestionLength)
    && NoDuplicates(p.topicsExplored)
  }

  lemma RegisterKeepsProfileOk(p: Profile, question: string, topic: Option<string>)
    requires ProfileOk(p)
    ensures ProfileOk(Register(p, question, topic))
  {
    var r := Register(p, question, topic);
    forall i | 0 <= i < |r.questionsAsked|
      ensures |r.questionsAsked[i]| <= QuestionLength
    {
      var all := p.questionsAsked + [Prefix(question, QuestionLength)];
      assert r.questionsAsked[i] == all[|all| - |r.questionsAsked| + i];
    }
  }

  /** What every history of a store keeps: at most fifty entries, each
      stored with at most `limit` characters of content. */
  ghost predicate HistoryOk(h: seq<Entry>, limit: nat)
  {
    |h| <= HistoryCap && forall i :: 0 <= i < |h| ==> |h[i].content| <= limit
  }

  lemma AppendKeepsHistoryOk(h: seq<Entry>, e: Entry, limit: nat)
    requires HistoryOk(h, limit) && |e.content| <= limit
    ensures HistoryOk(AppendCapped(h, e, HistoryCap), limit)
  {
    var r := AppendCapped(h, e, HistoryCap);
    forall i | 0 <= i < |r|
      ensures |r[i].content| <= limit
    {
      var all := h + [e];
      assert r[i] == all[|all| - |r| + i];
    }
  }

  /** The invariant of a whole store (`user_memories`, `conversation_history`,
      `learning_progress`): every profile and history is well formed, and a
      user has a progress record exactly when they have a profile. */
  ghost predicate StoreOk(profiles: map<int, Profile>, histories: map<int, seq<Entry>>,
                          progress: map<int, Progress>, limit: nat)
  {
    && (forall u :: u in profiles ==> ProfileOk(profiles[u]))
    && (forall u :: u in histories ==> HistoryOk(histories[u], limit))
    && progress.Keys == profiles.Keys
  }

  lemma StoreOkSetHistory(profiles: map<int, Profile>, histories: map<int, seq<Entry>>,
                          progress: map<int, Progress>, limit: nat, userId: int, h: seq<Entry>)
    requires StoreOk(profiles, histories, progress, limit) && HistoryOk(h, limit)
    ensures StoreOk(profiles, histories[userId := h], progress, limit)
  {
  }

  lemma StoreOkSetProfile(profiles: map<int, Profile>, histories: map<int, seq<Entry>>,
                          progress: map<int, Progress>, limit: nat, userId: int, p: Profile)
    requires StoreOk(profiles, histories, progress, limit) && ProfileOk(p) && userId in profiles
    ensures StoreOk(profiles[userId := p], histories, progress, limit)
  {
  }
}

/**
 * The per-user conversation history of bot.py: the module-level `user_conversations`
 * dictionary that /start and /clear reset and that each text message extends with the
 * user's turn, cuts to its last ten entries and, when the language model answers,
 * extends with the assistant's turn. The model call itself is an outcome parameter.
 */
module Conversation {

  datatype Role = User | Assistant

  /** One `{'role': ..., 'content': ...}` entry of a history. */
  datatype Message = Message(role: Role, content: string)

  /** What the chat call yields: the reply's content, or an exception. */
  datatype ChatOutcome = Replied(content: string) | Failed

  type History = seq<Message>

  /** The length `handle_message` cuts a history to: five user/assistant pairs. */
  const MaxHistory: nat := 10

  /** The handlers that touch the dictionary, each with the calling user's id. */
  datatype Event =
    | Start(userId: int)
    | Clear(userId: int)
    | Text(userId: int, text: string, outcome: ChatOutcome)

  /** `a` is what remains of `b` after dropping some of its first entries. */
  predicate IsSuffix(a: History, b: History)
  {
    |a| <= |b| && a == b[|b| - |a|..]
  }

  lemma SuffixTransitive(a: History, b: History, c: History)
    requires IsSuffix(a, b) && IsSuffix(b, c)
    ensures IsSuffix(a, c)
  {
  }

  lemma SuffixAppend(a: History, b: History, tail: History)
    requires IsSuffix(a, b)
    ensures IsSuffix(a + tail, b + tail)
  {
  }

  /** A user's history, empty for a user the dictionary does not hold yet. */
  function HistoryOf(m: map<int, History>, userId: int): History
  {
    if userId in m then m[userId] else []
  }

  /** `history[-10:]` when the history is longer than ten: the last ten entries, in order. */
  function Truncate(h: History): (r: History)
    ensures |r| == if |h| > MaxHistory then MaxHistory else |h|
    ensures IsSuffix(r, h)
  {
    if |h| > MaxHistory then h[|h| - MaxHistory..] else h
  }

  /**
   * The history that `handle_message` passes to the model: the stored history with the
   * user's turn appended, then truncated. It never exceeds ten entries and ends with
   * that turn.
   */
  function Prompt(h: History, text: string): (r: History)
    ensures |r| == if |h| + 1 > MaxHistory then MaxHistory else |h| + 1
    ensures r == h[|h| - (|r| - 1)..] + [Message(User, text)]
    ensures |h| < MaxHistory ==> r == h + [Message(User, text)]
  {
    var r := Truncate(h + [Message(User, text)]);
    assert r == (h + [Message(User, text)])[|h| + 1 - |r|..];
    r
  }

  /** The entries one text message contributes to the conversation. */
  function Turns(text: string, outcome: ChatOutcome): History
  {
    match outcome
    case Replied(reply) => [Message(User, text), Message(Assistant, reply)]
    case Failed => [Message(User, text)]
  }

  /** The stored history after `handle_message`. */
  function AfterText(h: History, text: string, outcome: ChatOutcome): (r: History)
    ensures |r| <= MaxHistory + 1
    ensures IsSuffix(r, h + Turns(text, outcome))
    ensures outcome.Failed? ==> r == Prompt(h, text)
    ensures outcome.Replied? ==>
              r == Prompt(h, text) + [Message(Assistant, outcome.content)] &&
              r[|r| - 2] == Message(User, text)
  {
    var p := Prompt(h, text);
    match outcome
    case Replied(reply) =>
      SuffixAppend(p, h + [Message(User, text)], [Message(Assistant, reply)]);
      assert h + [Message(User, text)] + [Message(Assistant, reply)] == h + Turns(text, outcome);
      p + [Message(Assistant, reply)]
    case Failed =>
      p
  }

  /** One handler's effect on the calling user's own history. */
  function StepOne(h: History, e: Event): History
  {
    match e
    case Start(_) => []
    case Clear(_) => []
    case Text(_, text, outcome) => AfterText(h, text, outcome)
  }

  /** One handler's effect on the whole dictionary: only the caller's entry changes. */
  function Step(m: map<int, History>, e: Event): (r: map<int, History>)
    ensures r.Keys == m.Keys + {e.userId}
    ensures forall u :: u in m && u != e.userId ==> r[u] == m[u]
  {
    m[e.userId := StepOne(HistoryOf(m, e.userId), e)]
  }

  /** The dictionary after the handlers run one after another. */
  function Run(m: map<int, History>, events: seq<Event>): map<int, History>
    decreases |events|
  {
    if events == [] then m else Run(Step(m, events[0]), events[1..])
  }

  /** One user's history after the given handlers, all of them that user's. */
  function RunOne(h: History, events: seq<Event>): History
    decreases |events|
  {
    if events == [] then h else RunOne(StepOne(h, events[0]), events[1..])
  }

  /** The events that come from one user, in order. */
  function EventsOf(events: seq<Event>, userId: int): seq<Event>
  {
    if events == [] then []
    else if events[0].userId == userId then [events[0]] + EventsOf(events[1..], userId)
    else EventsOf(events[1..], userId)
  }

  /** Users are isolated: a user's history depends only on that user's own messages. */
  lemma {:induction false} RunIsolated(m: map<int, History>, events: seq<Event>, userId: int)
    ensures HistoryOf(Run(m, events), userId) == RunOne(HistoryOf(m, userId), EventsOf(events, userId))
    decreases |events|
  {
    if events != [] {
      var e := events[0];
      RunIsolated(Step(m, e), events[1..], userId);
      if e.userId == userId {
        assert HistoryOf(Step(m, e), userId) == StepOne(HistoryOf(m, userId), e);
      } else {
        assert HistoryOf(Step(m, e), userId) == HistoryOf(m, userId);
      }
    }
  }

  /** Every entry exchanged since the user's last /start or /clear, in order. */
  function Transcript(log: History, events: seq<Event>): History
    decreases |events|
  {
    if events == [] then log
    else match events[0]
      case Start(_) => Transcript([], events[1..])
      case Clear(_) => Transcript([], events[1..])
      case Text(_, text, outcome) => Transcript(log + Turns(text, outcome), events[1..])
  }

  /**
   * The stored history is always the most recent part of the transcript, with its
   * order kept: truncation only ever drops the oldest entries.
   */
  lemma {:induction false} RunOneSuffixOfTranscript(h: History, log: History, events: seq<Event>)
    requires IsSuffix(h, log)
    ensures IsSuffix(RunOne(h, events), Transcript(log, events))
    decreases |events|
  {
    if events != [] {
      match events[0]
      case Start(_) =>
        RunOneSuffixOfTranscript([], [], events[1..]);
      case Clear(_) =>
        RunOneSuffixOfTranscript([], [], events[1..]);
      case Text(_, text, outcome) =>
        var h' := AfterText(h, text, outcome);
        SuffixAppend(h, log, Turns(text, outcome));
        SuffixTransitive(h', h + Turns(text, outcome), log + Turns(text, outcome));
        RunOneSuffixOfTranscript(h', log + Turns(text, outcome), events[1..]);
    }
  }

  /** No sequence of handlers grows a history past eleven entries. */
  lemma {:induction false} RunOneBounded(h: History, events: seq<Event>)
    requires |h| <= MaxHistory + 1
    ensures |RunOne(h, events)| <= MaxHistory + 1
    decreases |events|
  {
    if events != [] {
      RunOneBounded(StepOne(h, events[0]), events[1..]);
    }
  }

  /** Every history in the dictionary holds at most eleven entries. */
  predicate Bounded(m: map<int, History>)
  {
    forall u :: u in m ==> |m[u]| <= MaxHistory + 1
  }

  /** Every handler keeps the dictionary Bounded. */
  lemma StepBounded(m: map<int, History>, e: Event)
    requires Bounded(m)
    ensures Bounded(Step(m, e))
  {
  }

  /**
   * The list operations of `handle_message` on one history: append the user's turn,
   * keep the last ten entries, and append the reply if there is one. `prompt` is the
   * history as the model sees it.
   */
  method ExtendHistory(h: History, text: string, outcome: ChatOutcome) returns (prompt: History, h': History)
    ensures prompt == Prompt(h, text)
    ensures h' == AfterText(h, text, outcome)
  {
    h' := h + [Message(User, text)];
    if |h'| > MaxHistory {
      h' := h'[|h'| - MaxHistory..];
    }
    prompt := h';
    match outcome {
      case Replied(reply) =>
        h' := h' + [Message(Assistant, reply)];
      case Failed =>
    }
  }

  /** The `user_conversations` dictionary and the handlers that update it. */
  class ConversationStore {
    var conversations: map<int, History>

    ghost predicate Valid()
      reads this
    {
      Bounded(conversations)
    }

    constructor ()
      ensures Valid() && conversations == map[]
    {
      conversations := map[];
    }

    /** /start: the caller's history becomes empty. */
    method Start(userId: int)
      requires Valid()
      modifies this
      ensures Valid()
      ensures conversations == Step(old(conversations), Event.Start(userId))
      ensures conversations[userId] == []
    {
      conversations := conversations[userId := []];
    }

    /** /clear: the caller's history becomes empty. */
    method Clear(userId: int)
      requires Valid()
      modifies this
      ensures Valid()
      ensures conversations == Step(old(conversations), Event.Clear(userId))
      ensures conversations[userId] == []
    {
      conversations := conversations[userId := []];
    }

    /**
     * A text message: appends the user's turn, keeps the last ten entries, hands them
     * to the model (returned as `prompt`) and, if the model answers, appends its turn.
     */
    method HandleMessage(userId: int, text: string, outcome: ChatOutcome) returns (prompt: History)
      requires Valid()
      modifies this
      ensures Valid()
      ensures prompt == Prompt(HistoryOf(old(conversations), userId), text)
      ensures conversations == Step(old(conversations), Text(userId, text, outcome))
    {
      StepBounded(conversations, Text(userId, text, outcome));
      var history := HistoryOf(conversations, userId);
      prompt, history := ExtendHistory(history, text, outcome);
      conversations := conversations[userId := history];
    }
  }
}

/**
 * The `/api/chat` and `/api/reset` handlers: the conversation window kept for
 * the language-model provider and the single personality manager they share.
 */
module Chat {
  import opened Keywords
  import opened Personality

  datatype Option<T> = None | Some(value: T)

  datatype Role = System | User | Assistant

  /** One entry of the history, `{"role": ..., "content": ...}`. */
  datatype Message = Message(role: Role, content: string)

  /** The longest history kept after a reply: the system entry and the last 20 turns' entries. */
  const Window: nat := 21
  const Kept: nat := 20

  function Min(a: int, b: int): int {
    if a <= b then a else b
  }

  /** The history begins with a system entry. */
  predicate StartsWithSystem(h: seq<Message>) {
    h != [] && h[0].role == System
  }

  /** A system entry sits at index 0 of a non-empty history and nowhere else. */
  predicate Shaped(h: seq<Message>) {
    h == [] || (h[0].role == System && forall i | 1 <= i < |h| :: h[i].role != System)
  }

  /** The length of the history once its system entry is in place. */
  function SyncedLength(h: seq<Message>): nat {
    if StartsWithSystem(h) then |h| else |h| + 1
  }

  /**
   * The system-prompt sync: an existing system entry at index 0 is replaced,
   * otherwise a new one is inserted in front of every old entry.
   */
  function Synced(h: seq<Message>, prompt: string): (r: seq<Message>)
    ensures |r| == SyncedLength(h)
    ensures r[0] == Message(System, prompt)
    ensures StartsWithSystem(h) ==> forall i | 1 <= i < |h| :: r[i] == h[i]
    ensures !StartsWithSystem(h) ==> forall i | 0 <= i < |h| :: r[i + 1] == h[i]
  {
    var m := Message(System, prompt);
    if StartsWithSystem(h) then h[0 := m] else [m] + h
  }

  /** The length cap applied after a reply: entry 0 and the last 20 entries survive. */
  function Truncated(h: seq<Message>): (r: seq<Message>)
    ensures |r| == Min(|h|, Window)
    ensures h != [] ==> r[0] == h[0]
    ensures forall j | 1 <= j < |r| :: r[j] == h[|h| - |r| + j]
  {
    if |h| > Window then
      var r := [h[0]] + h[|h| - Kept..];
      assert |r| == Window;
      assert forall j | 1 <= j < |r| :: r[j] == h[|h| - Kept + j - 1];
      r
    else h
  }

  /**
   * The history after one non-empty message: prompt sync, the user entry, and,
   * when the provider answered, the assistant entry followed by the cap.
   */
  function Exchange(h: seq<Message>, prompt: string, user: string, reply: Option<string>): seq<Message> {
    var asked := Synced(h, prompt) + [Message(User, user)];
    match reply
    case None => asked
    case Some(answer) => Truncated(asked + [Message(Assistant, answer)])
  }

  /** Truncation is idempotent: a capped history is left alone. */
  lemma TruncatedIdempotent(h: seq<Message>)
    ensures Truncated(Truncated(h)) == Truncated(h)
  {
  }

  /** Syncing twice with the same prompt is the same as syncing once. */
  lemma SyncedIdempotent(h: seq<Message>, prompt: string)
    ensures Synced(Synced(h, prompt), prompt) == Synced(h, prompt)
  {
    var r := Synced(h, prompt);
    assert StartsWithSystem(r);
  }

  /** Syncing keeps the system entry at index 0 only. */
  lemma SyncedShaped(h: seq<Message>, prompt: string)
    requires Shaped(h)
    ensures Shaped(Synced(h, prompt))
  {
    var s := Synced(h, prompt);
    if StartsWithSystem(h) {
      forall i | 1 <= i < |s| ensures s[i].role != System {
        assert s[i] == h[i];
      }
    }
  }

  /** Cutting keeps the system entry at index 0 only. */
  lemma TruncatedShaped(h: seq<Message>)
    requires Shaped(h)
    ensures Shaped(Truncated(h))
  {
    var r := Truncated(h);
    forall i | 1 <= i < |r| ensures r[i].role != System {
      assert r[i] == h[|h| - |r| + i];
    }
  }

  /**
   * One exchange keeps the system entry at index 0 only, with the current
   * prompt, and ends with the new entries: the user message, then the reply
   * when there is one.
   */
  lemma ExchangeShape(h: seq<Message>, prompt: string, user: string, reply: Option<string>)
    requires Shaped(h)
    ensures var r := Exchange(h, prompt, user, reply);
            && Shaped(r)
            && r[0] == Message(System, prompt)
            && (reply.None? ==> r[|r| - 1] == Message(User, user))
            && (reply.Some? ==> r[|r| - 2] == Message(User, user) && r[|r| - 1] == Message(Assistant, reply.value))
  {
    var s := Synced(h, prompt);
    SyncedShaped(h, prompt);
    var asked := s + [Message(User, user)];
    assert Shaped(asked);
    match reply
    case None =>
    case Some(answer) =>
      var full := asked + [Message(Assistant, answer)];
      assert Shaped(full);
      TruncatedShaped(full);
      var r := Truncated(full);
      assert r[|r| - 1] == full[|full| - 1];
      assert r[|r| - 2] == full[|full| - 2];
  }

  /**
   * The length after one exchange: a failed provider call leaves the user
   * entry in place with no cap, a reply brings the length to at most 21.
   */
  lemma ExchangeLength(h: seq<Message>, prompt: string, user: string, reply: Option<string>)
    ensures var r := Exchange(h, prompt, user, reply);
            && (reply.None? ==> |r| == SyncedLength(h) + 1)
            && (reply.Some? ==> |r| == Min(SyncedLength(h) + 2, Window))
            && StartsWithSystem(r)
  {
    var asked := Synced(h, prompt) + [Message(User, user)];
    assert asked[0].role == System;
  }

  /** One request to `/api/chat` as far as the history sees it. */
  datatype Turn = Turn(prompt: string, user: string, reply: Option<string>)

  /** The history after a sequence of non-empty messages. */
  function Converse(h: seq<Message>, turns: seq<Turn>): seq<Message>
    decreases |turns|
  {
    if turns == [] then h
    else Converse(Exchange(h, turns[0].prompt, turns[0].user, turns[0].reply), turns[1..])
  }

  /**
   * With every provider call answered, the history holds the system entry plus
   * two entries per message, up to the cap of 21: 25 messages from an empty
   * history leave exactly 21 entries.
   */
  lemma {:induction false} ConverseAnswered(h: seq<Message>, turns: seq<Turn>)
    requires turns != []
    requires forall i | 0 <= i < |turns| :: turns[i].reply.Some?
    ensures |Converse(h, turns)| == Min(SyncedLength(h) + 2 * |turns|, Window)
    decreases |turns|
  {
    var t := turns[0];
    var h' := Exchange(h, t.prompt, t.user, t.reply);
    ExchangeLength(h, t.prompt, t.user, t.reply);
    if |turns| > 1 {
      ConverseAnswered(h', turns[1..]);
      assert SyncedLength(h') == |h'|;
    }
  }

  /**
   * With every provider call failing, nothing is ever cut: each message adds
   * its user entry, so the history outgrows the cap of 21.
   */
  lemma {:induction false} ConverseFailing(h: seq<Message>, turns: seq<Turn>)
    requires turns != []
    requires forall i | 0 <= i < |turns| :: turns[i].reply.None?
    ensures |Converse(h, turns)| == SyncedLength(h) + |turns|
    decreases |turns|
  {
    var t := turns[0];
    var h' := Exchange(h, t.prompt, t.user, t.reply);
    ExchangeLength(h, t.prompt, t.user, t.reply);
    if |turns| > 1 {
      ConverseFailing(h', turns[1..]);
      assert SyncedLength(h') == |h'|;
    }
  }

  /** What `/api/chat` answers. */
  datatype ChatResponse =
    | EmptyMessage
    | ProviderError
    | Replied(reply: string, personality: Snapshot, debug: seq<Change>)

  /** The points added for every message by `/api/chat`. */
  const ChatPoints: int := 5

  /** The server state shared by the handlers: one personality manager and the history. */
  class ChatServer {
    const manager: PersonalityManager
    var history: seq<Message>

    /** Counters never negative; the history shaped, its system entry holding the current prompt. */
    ghost predicate Valid()
      reads this, manager
    {
      && NonNegative(manager.points)
      && Shaped(history)
      && (history != [] ==> history[0] == Message(System, ConfigOf(Current(manager.points)).prompt))
    }

    constructor ()
      ensures fresh(manager)
      ensures manager.points == Zero && history == []
      ensures Valid()
    {
      manager := new PersonalityManager();
      history := [];
    }

    /**
     * `chat()`: an empty message changes nothing; otherwise the counters take
     * the update, the history is synced and extended, and it is capped only
     * when the provider answered.
     */
    method Chat(userInput: string, reply: Option<string>) returns (r: ChatResponse)
      requires Valid()
      modifies this, manager
      ensures Valid()
      ensures userInput == [] ==>
                r == EmptyMessage && manager.points == old(manager.points) && history == old(history)
      ensures userInput != [] ==>
                var u := Update(old(manager.points), userInput, ChatPoints);
                && manager.points == u.points
                && history == Exchange(old(history), ConfigOf(Current(u.points)).prompt, userInput, reply)
                && r == (if reply.None? then ProviderError else Replied(reply.value, manager.PersonalityData(), u.changes))
    {
      if userInput == [] {
        return EmptyMessage;
      }
      ghost var before := manager.points;
      ghost var oldHistory := history;
      ApplyNonNegative(before, Classify(userInput), ChatPoints);
      var personalityData := manager.UpdatePoints(userInput, ChatPoints);
      var (currentType, currentConfig) := manager.CurrentPersonality();

      var systemMessage := Message(System, currentConfig.prompt);
      if history != [] && history[0].role == System {
        history := history[0 := systemMessage];
      } else {
        history := [systemMessage] + history;
      }
      assert history == Synced(oldHistory, currentConfig.prompt);
      history := history + [Message(User, userInput)];

      ghost var expected := Exchange(oldHistory, currentConfig.prompt, userInput, reply);
      ExchangeShape(oldHistory, currentConfig.prompt, userInput, reply);
      match reply
      case None =>
        r := ProviderError;
        assert history == expected;
      case Some(aiReply) =>
        history := history + [Message(Assistant, aiReply)];
        assert Truncated(history) == expected;
        if |history| > Window {
          history := [history[0]] + history[|history| - Kept..];
        }
        assert history == expected;
        r := Replied(aiReply, manager.PersonalityData(), personalityData.changes);
    }

    /** `reset()`: every counter back to 0 and the history emptied; the personality is neutral again. */
    method Reset() returns (d: Snapshot)
      modifies this, manager
      ensures manager.points == Zero && history == []
      ensures Valid()
      ensures d == manager.PersonalityData() && d.currentType == Neutral
    {
      for i := 0 to |Priority|
        invariant forall j | 0 <= j < i :: Score(manager.points, Priority[j]) == 0
      {
        manager.points := SetScore(manager.points, Priority[i], 0);
      }
      assert Score(manager.points, Priority[0]) == 0 && Score(manager.points, Priority[1]) == 0
          && Score(manager.points, Priority[2]) == 0 && Score(manager.points, Priority[3]) == 0
          && Score(manager.points, Priority[4]) == 0;
      history := [];
      d := manager.PersonalityData();
    }
  }
}

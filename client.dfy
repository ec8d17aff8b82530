/** The session-keeping part of the browser client (`EnhancedChatbot`):
    its state (the session map, the current session id, the typing and
    connection flags, the saved copy of the sessions) and the methods that
    change it, sends being taken one at a time. */
module Sessions {
  import opened Text
  import opened UiHelpers
  import opened SessionStore
  import opened StreamConsumer

  const OfflineNotice: string := "The bot is offline right now. Start the model server and try again."

  /** How the chat request goes: `fetch` throws, the response is not ok,
      or a body arrives as `chunks`, after which reading either reports
      the end (`broken` false) or throws (`broken` true). */
  datatype ChatReply = NoResponse | NotOk | Streamed(chunks: seq<string>, broken: bool)

  /** Whether the request fails: `fetch` throws, the response is not ok,
      or reading the body throws before `done`. */
  predicate Failed(parse: string -> Frame, reply: ChatReply)
  {
    match reply
    case NoResponse => true
    case NotOk => true
    case Streamed(chunks, broken) => StreamOutcome(parse, chunks, broken).ReadFailed?
  }

  /** Whether `sendStreamingMessage` throws out to its caller: its `catch`
      refers to `messageElement`, which is declared inside the `try` block
      and is not in scope there, so the reference throws before the offline
      notice is shown. Only the not-ok response returns normally. */
  predicate SendThrows(parse: string -> Frame, reply: ChatReply)
  {
    Failed(parse, reply) && !reply.NotOk?
  }

  /** The bot turns a streaming send adds to the current session, as the
      code runs: the committed text, or the offline notice for a response
      that is not ok. */
  function BotTurns(parse: string -> Frame, reply: ChatReply): (r: seq<Message>)
    ensures |r| <= 1 && forall m :: m in r ==> m.role == Bot
    ensures r != [] <==> reply.NotOk? || (reply.Streamed? && StreamOutcome(parse, reply.chunks, reply.broken).Committed?)
  {
    match reply
    case NoResponse => []
    case NotOk => [Message(Bot, OfflineNotice)]
    case Streamed(chunks, broken) =>
      match StreamOutcome(parse, chunks, broken)
      case Committed(text) => [Message(Bot, text)]
      case EndedWithoutDone => []
      case ReadFailed => []
  }

  /** The bot turns the error handler is evidently meant to add: every
      failure, the not-ok response as well as a rejected request or a
      failed read, shows the offline notice. */
  function IntendedBotTurns(parse: string -> Frame, reply: ChatReply): seq<Message>
  {
    match reply
    case NoResponse => [Message(Bot, OfflineNotice)]
    case NotOk => [Message(Bot, OfflineNotice)]
    case Streamed(chunks, broken) =>
      match StreamOutcome(parse, chunks, broken)
      case Committed(text) => [Message(Bot, text)]
      case EndedWithoutDone => []
      case ReadFailed => [Message(Bot, OfflineNotice)]
  }

  /** As written, a failed send leaves the current session with the user's
      turn and the offline notice only when the response was not ok: after
      a rejected request or a failed read it has no bot turn at all. */
  lemma FailedSendTurns(es: seq<Entry>, cur: Option<string>, message: string, parse: string -> Frame, reply: ChatReply)
    requires UniqueKeys(es) && Failed(parse, reply)
    requires cur.Some? && Has(es, cur.value)
    ensures match Lookup(AfterSend(es, cur, message, BotTurns(parse, reply)), cur.value)
            case Some(s) => s.messages == Lookup(es, cur.value).value.messages + [Message(User, message)]
                                          + (if SendThrows(parse, reply) then [] else [Message(Bot, OfflineNotice)])
            case None => false
  {
    SendEffect(es, cur, message, BotTurns(parse, reply));
  }

  /** The corrected error handler: every failed send leaves the current
      session with the user's turn followed by exactly one offline notice,
      and a send that does not fail adds the same turns as the code. */
  lemma IntendedSendTurns(es: seq<Entry>, cur: Option<string>, message: string, parse: string -> Frame, reply: ChatReply)
    requires UniqueKeys(es)
    requires cur.Some? && Has(es, cur.value)
    ensures Failed(parse, reply) ==>
              match Lookup(AfterSend(es, cur, message, IntendedBotTurns(parse, reply)), cur.value)
              case Some(s) => s.messages == Lookup(es, cur.value).value.messages + [Message(User, message), Message(Bot, OfflineNotice)]
              case None => false
    ensures !Failed(parse, reply) ==> IntendedBotTurns(parse, reply) == BotTurns(parse, reply)
  {
    SendEffect(es, cur, message, IntendedBotTurns(parse, reply));
    if Failed(parse, reply) {
      assert [Message(User, message)] + [Message(Bot, OfflineNotice)] == [Message(User, message), Message(Bot, OfflineNotice)];
    }
  }

  /** The connection flag after a streaming send: cleared by every failure. */
  function ConnectedAfter(parse: string -> Frame, reply: ChatReply, was: bool): (r: bool)
    ensures r <==> was && !Failed(parse, reply)
  {
    match reply
    case NoResponse => false
    case NotOk => false
    case Streamed(chunks, broken) => if StreamOutcome(parse, chunks, broken).ReadFailed? then false else was
  }

  class ChatClient {
    var sessions: seq<Entry>
    var currentSessionId: Option<string>
    var isTyping: bool
    var isConnected: bool
    var saveConversations: bool
    /** The `neuralai_sessions` storage item. */
    var storage: Option<Stored>

    ghost predicate Valid()
      reads this
    {
      UniqueKeys(sessions)
    }

    /** With saving on, the stored copy is the sessions. */
    ghost predicate Synced()
      reads this
    {
      saveConversations ==> storage == Some(Saved(sessions))
    }

    constructor(saveConversations: bool, storage: Option<Stored>)
      ensures Valid()
      ensures sessions == [] && currentSessionId == None && !isTyping && isConnected
      ensures this.saveConversations == saveConversations && this.storage == storage
    {
      sessions := [];
      currentSessionId := None;
      isTyping := false;
      isConnected := true;
      this.saveConversations := saveConversations;
      this.storage := storage;
    }

    /** `saveSessionsToStorage`: writes the sessions when saving is on. */
    method SaveSessionsToStorage()
      modifies this`storage
      ensures storage == if saveConversations then Some(Saved(sessions)) else old(storage)
    {
      if saveConversations {
        storage := Some(Saved(sessions));
      }
    }

    /** `loadSessionsFromStorage`: `set` for each stored pair in order;
        nothing when saving is off, nothing is stored, or the stored text
        does not parse. */
    method LoadSessionsFromStorage()
      requires Valid()
      modifies this`sessions
      ensures Valid()
      ensures sessions == Loaded(old(sessions), storage, saveConversations)
    {
      if !saveConversations {
        return;
      }
      match storage {
        case None =>
        case Some(Corrupt) =>
        case Some(Saved(saved)) =>
          ghost var start := sessions;
          var i := 0;
          while i < |saved|
            invariant i <= |saved|
            invariant sessions == LoadAll(start, saved[..i])
            invariant UniqueKeys(sessions)
          {
            SetEntryKeys(sessions, saved[i].key, saved[i].session);
            assert saved[..i + 1][..i] == saved[..i];
            sessions := SetEntry(sessions, saved[i].key, saved[i].session);
            i := i + 1;
          }
          assert saved[..i] == saved;
      }
    }

    /** `createSession(id, title)`. */
    method CreateSession(id: string, title: string) returns (session: Session)
      requires Valid()
      modifies this`sessions, this`storage
      ensures Valid()
      ensures session == Session(id, title, [])
      ensures sessions == SetEntry(old(sessions), id, session)
      ensures storage == if saveConversations then Some(Saved(sessions)) else old(storage)
      ensures old(Synced()) ==> Synced()
    {
      session := Session(id, title, []);
      SetEntryKeys(sessions, id, session);
      sessions := SetEntry(sessions, id, session);
      SaveSessionsToStorage();
    }

    /** `createNewSession`, the clock reading `now` (milliseconds) naming
        the session: a `New Chat` session under `session_<now>`, made
        current. An id already in use has its session replaced by the empty
        one. */
    method CreateNewSession(now: nat) returns (id: string)
      requires Valid()
      modifies this`sessions, this`currentSessionId, this`storage
      ensures Valid()
      ensures id == "session_" + NatToString(now)
      ensures sessions == SetEntry(old(sessions), id, Session(id, NewChatTitle, []))
      ensures Lookup(sessions, id) == Some(Session(id, NewChatTitle, []))
      ensures currentSessionId == Some(id)
      ensures storage == if saveConversations then Some(Saved(sessions)) else old(storage)
      ensures old(Synced()) ==> Synced()
    {
      id := "session_" + NatToString(now);
      ghost var before := sessions;
      var session := CreateSession(id, NewChatTitle);
      SetEntryLookup(before, id, session, id);
      LookupMissing(sessions, id);
      SwitchToSession(id);
    }

    /** `switchToSession(id)`: an unknown id changes nothing. */
    method SwitchToSession(id: string)
      modifies this`currentSessionId, this`storage
      ensures !Has(sessions, id) ==> currentSessionId == old(currentSessionId) && storage == old(storage)
      ensures Has(sessions, id) ==>
                currentSessionId == Some(id) && storage == if saveConversations then Some(Saved(sessions)) else old(storage)
      ensures old(Synced()) ==> Synced()
    {
      if !Has(sessions, id) {
        return;
      }
      currentSessionId := Some(id);
      SaveSessionsToStorage();
    }

    /** `initializeSessions`: load, create the default session if the store
        is still empty, then switch to the first id. */
    method InitializeSessions()
      requires Valid()
      modifies this`sessions, this`currentSessionId, this`storage
      ensures Valid()
      ensures sessions == Initialized(old(sessions), old(storage), saveConversations)
      ensures sessions != [] && currentSessionId == Some(sessions[0].key)
      ensures storage == if saveConversations then Some(Saved(sessions)) else old(storage)
      ensures Synced()
    {
      LoadSessionsFromStorage();
      if |sessions| == 0 {
        var _ := CreateSession(DefaultSessionId, NewChatTitle);
        assert sessions == [Entry(DefaultSessionId, Session(DefaultSessionId, NewChatTitle, []))];
      }
      LookupAt(sessions, 0);
      SwitchToSession(sessions[0].key);
    }

    /** `addMessageToSession(role, content)`: one turn at the end of the
        current session, if there is one. */
    method AddMessageToSession(role: Role, content: string)
      requires Valid()
      modifies this`sessions, this`storage
      ensures Valid()
      ensures sessions == AppendTurns(old(sessions), currentSessionId, [Message(role, content)])
      ensures storage == if HasCurrent(old(sessions), currentSessionId) && saveConversations
                         then Some(Saved(sessions)) else old(storage)
      ensures old(Synced()) ==> Synced()
    {
      AppendTurnsEffect(sessions, currentSessionId, [Message(role, content)]);
      match currentSessionId {
        case None =>
        case Some(k) =>
          LookupMissing(sessions, k);
          match Lookup(sessions, k) {
            case None =>
            case Some(s) =>
              sessions := SetEntry(sessions, k, s.(messages := s.messages + [Message(role, content)]));
              SaveSessionsToStorage();
          }
      }
    }

    /** `deleteSession(id)`: refused while at most one session exists;
        otherwise the entry goes, and deleting the current session moves to
        the first id left. */
    method DeleteSession(id: string)
      requires Valid()
      modifies this`sessions, this`currentSessionId, this`storage
      ensures Valid()
      ensures |old(sessions)| <= 1 ==>
                sessions == old(sessions) && currentSessionId == old(currentSessionId) && storage == old(storage)
      ensures |old(sessions)| > 1 ==> sessions == RemoveKey(old(sessions), id) && sessions != []
      ensures |old(sessions)| > 1 && old(currentSessionId) == Some(id) ==> currentSessionId == Some(sessions[0].key)
      ensures |old(sessions)| > 1 && old(currentSessionId) != Some(id) ==> currentSessionId == old(currentSessionId)
      ensures |old(sessions)| > 1 ==> storage == if saveConversations then Some(Saved(sessions)) else old(storage)
      ensures old(Synced()) ==> Synced()
    {
      if |sessions| <= 1 {
        return;
      }
      RemoveKeyUnique(sessions, id);
      RemoveKeyFirst(sessions, id);
      sessions := RemoveKey(sessions, id);
      if currentSessionId == Some(id) {
        LookupAt(sessions, 0);
        SwitchToSession(sessions[0].key);
      }
      SaveSessionsToStorage();
    }

    /** `updateSessionTitle(id, title)`: an unknown id changes nothing. */
    method UpdateSessionTitle(id: string, title: string)
      requires Valid()
      modifies this`sessions, this`storage
      ensures Valid()
      ensures sessions == Retitle(old(sessions), id, title)
      ensures storage == if Has(old(sessions), id) && saveConversations then Some(Saved(sessions)) else old(storage)
      ensures old(Synced()) ==> Synced()
    {
      LookupMissing(sessions, id);
      match Lookup(sessions, id) {
        case None =>
        case Some(s) =>
          SetEntryKeys(sessions, id, s.(title := title));
          sessions := SetEntry(sessions, id, s.(title := title));
          SaveSessionsToStorage();
      }
    }

    /** `checkConnection`, given the outcome of the status request. */
    method CheckConnection(probe: StatusProbe) returns (connected: bool)
      modifies this`isConnected
      ensures connected == ProbeConnected(probe) && isConnected == connected
    {
      isConnected := false;
      connected := ProbeConnected(probe);
      isConnected := connected;
    }

    /** `showOfflineMessage`: the offline notice becomes a bot turn. */
    method ShowOfflineMessage()
      requires Valid()
      modifies this`sessions, this`storage
      ensures Valid()
      ensures sessions == AppendTurns(old(sessions), currentSessionId, [Message(Bot, OfflineNotice)])
      ensures storage == if HasCurrent(old(sessions), currentSessionId) && saveConversations
                         then Some(Saved(sessions)) else old(storage)
      ensures old(Synced()) ==> Synced()
    {
      AddMessageToSession(Bot, OfflineNotice);
    }

    /** `sendStreamingMessage`: the typing flag is cleared before the body
        is read; a committed reply becomes a bot turn; every failure clears
        the connection flag. A response that is not ok adds the offline
        notice; a rejected request or a failed read adds no bot turn and
        throws to the caller (`threw`). */
    method SendStreamingMessage(parse: string -> Frame, reply: ChatReply) returns (threw: bool)
      requires Valid()
      modifies this`sessions, this`storage, this`isTyping, this`isConnected
      ensures Valid()
      ensures threw == SendThrows(parse, reply)
      ensures sessions == AppendTurns(old(sessions), currentSessionId, BotTurns(parse, reply))
      ensures !isTyping
      ensures isConnected == ConnectedAfter(parse, reply, old(isConnected))
      ensures !saveConversations ==> storage == old(storage)
      ensures old(Synced()) ==> Synced()
    {
      isTyping := true;
      threw := false;
      match reply {
        case NoResponse =>
          isConnected := false;
          isTyping := false;
          AppendNothing(sessions, currentSessionId);
          threw := true;
        case NotOk =>
          isConnected := false;
          isTyping := false;
          ShowOfflineMessage();
        case Streamed(chunks, broken) =>
          isTyping := false;
          var botMessage, outcome := ReadStream(parse, chunks, broken);
          match outcome {
            case Committed(text) =>
              AddMessageToSession(Bot, text);
            case EndedWithoutDone =>
              AppendNothing(sessions, currentSessionId);
            case ReadFailed =>
              isConnected := false;
              AppendNothing(sessions, currentSessionId);
              threw := true;
          }
      }
    }

    /** The first steps of a send: the message becomes a user turn of the
        current session, and a session still titled `New Chat` whose only
        turn is that message is named after it. */
    method RecordUserMessage(message: string)
      requires Valid()
      modifies this`sessions, this`storage
      ensures Valid()
      ensures sessions == TitleRule(AppendTurns(old(sessions), currentSessionId, [Message(User, message)]), currentSessionId, message)
      ensures HasCurrent(sessions, currentSessionId) == HasCurrent(old(sessions), currentSessionId)
      ensures !saveConversations ==> storage == old(storage)
      ensures old(Synced()) ==> Synced()
    {
      ghost var es := sessions;
      AddMessageToSession(User, message);
      ghost var a := sessions;
      AppendTurnsEffect(es, currentSessionId, [Message(User, message)]);
      SameKeys(es, a, currentSessionId);
      match currentSessionId {
        case None =>
        case Some(k) =>
          match Lookup(sessions, k) {
            case None =>
            case Some(session) =>
              if |session.messages| == 1 && session.title == NewChatTitle {
                UpdateSessionTitle(k, GenerateSessionTitle(message));
              }
          }
      }
      assert sessions == TitleRule(a, currentSessionId, message);
      TitleRuleEffect(a, currentSessionId, message);
      SameKeys(a, sessions, currentSessionId);
    }

    /** The try block of `handleSendMessage` once the guard lets `message`
        through: the message is recorded, the connection is probed (the
        probe's answer, `probe`, being taken to arrive before the reply),
        and the reply is streamed in; a throw of the streaming send is
        passed on (`threw`). */
    method SendAccepted(parse: string -> Frame, message: string, probe: StatusProbe, reply: ChatReply) returns (threw: bool)
      requires Valid()
      modifies this`sessions, this`storage, this`isTyping, this`isConnected
      ensures Valid()
      ensures threw == SendThrows(parse, reply)
      ensures sessions == AfterSend(old(sessions), currentSessionId, message, BotTurns(parse, reply))
      ensures !isTyping && isConnected == ConnectedAfter(parse, reply, ProbeConnected(probe))
      ensures old(Synced()) ==> Synced()
      ensures !saveConversations ==> storage == old(storage)
    {
      RecordUserMessage(message);
      var _ := CheckConnection(probe);
      threw := SendStreamingMessage(parse, reply);
    }

    /** `handleSendMessage` with streaming on: nothing happens for blank
        input or while a reply is awaited; otherwise the trimmed message
        goes through `SendAccepted`, whose throw the handler catches. */
    method HandleSendMessage(parse: string -> Frame, input: string, probe: StatusProbe, reply: ChatReply)
      requires Valid()
      modifies this`sessions, this`storage, this`isTyping, this`isConnected
      ensures Valid()
      ensures !SendGuard(input, old(isTyping)) ==>
                sessions == old(sessions) && storage == old(storage)
                && isTyping == old(isTyping) && isConnected == old(isConnected)
      ensures SendGuard(input, old(isTyping)) ==>
                sessions == AfterSend(old(sessions), currentSessionId, Trim(input), BotTurns(parse, reply))
                && !isTyping && isConnected == ConnectedAfter(parse, reply, ProbeConnected(probe))
      ensures old(Synced()) ==> Synced()
      ensures !saveConversations ==> storage == old(storage)
    {
      var message := Trim(input);
      if message == [] || isTyping {
        return;
      }
      // A throw reaches the handler's `catch`, which shows a toast and hides
      // the typing indicator, already hidden: the state stays as it is.
      var _ := SendAccepted(parse, message, probe, reply);
    }
  }
}

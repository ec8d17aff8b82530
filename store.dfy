/** The session store of the browser client, on values: a JavaScript `Map`
    from session id to session, modelled as the sequence of its entries in
    insertion order. `set` on a key already present replaces the entry in
    place; `set` on a new key appends; `delete` removes the entry and keeps
    the order of the others. */
module SessionStore {
  import opened Text
  import opened UiHelpers

  datatype Role = User | Bot

  /** A turn of a conversation; its timestamp is not modelled. */
  datatype Message = Message(role: Role, content: string)

  /** A chat session; its creation and update dates are not modelled. */
  datatype Session = Session(id: string, title: string, messages: seq<Message>)

  datatype Entry = Entry(key: string, session: Session)

  const DefaultSessionId: string := "default"

  /** The ids in insertion order: `sessions.keys()`. */
  function Keys(es: seq<Entry>): (ks: seq<string>)
    ensures |ks| == |es|
  {
    seq(|es|, i requires 0 <= i < |es| => es[i].key)
  }

  predicate UniqueKeys(es: seq<Entry>)
  {
    forall i, j {:trigger es[i].key, es[j].key} :: 0 <= i < j < |es| ==> es[i].key != es[j].key
  }

  /** The position of the entry with key `k`, searching from `from`. */
  function Find(es: seq<Entry>, k: string, from: nat := 0): (r: Option<nat>)
    requires from <= |es|
    ensures r.Some? ==> from <= r.value < |es| && es[r.value].key == k
    ensures r.Some? ==> forall j :: from <= j < r.value ==> es[j].key != k
    ensures r.None? ==> forall j :: from <= j < |es| ==> es[j].key != k
    decreases |es| - from
  {
    if from == |es| then None
    else if es[from].key == k then Some(from)
    else Find(es, k, from + 1)
  }

  /** `sessions.has(k)`. */
  predicate Has(es: seq<Entry>, k: string)
  {
    Find(es, k).Some?
  }

  /** `sessions.get(k)`. */
  function Lookup(es: seq<Entry>, k: string): Option<Session>
  {
    match Find(es, k)
    case None => None
    case Some(i) => Some(es[i].session)
  }

  /** `sessions.set(k, s)`. */
  function SetEntry(es: seq<Entry>, k: string, s: Session): seq<Entry>
  {
    match Find(es, k)
    case Some(i) => es[i := Entry(k, s)]
    case None => es + [Entry(k, s)]
  }

  /** `sessions.delete(k)`. */
  function RemoveKey(es: seq<Entry>, k: string): (r: seq<Entry>)
    ensures |r| <= |es|
    ensures forall e :: e in r <==> e in es && e.key != k
  {
    if es == [] then []
    else (if es[0].key == k then [] else [es[0]]) + RemoveKey(es[1..], k)
  }

  // ---------------------------------------------------------------------
  // Lookups

  /** With unique keys, the entry at position `i` is the one found for its key. */
  lemma LookupAt(es: seq<Entry>, i: nat)
    requires UniqueKeys(es) && i < |es|
    ensures Has(es, es[i].key)
    ensures Lookup(es, es[i].key) == Some(es[i].session)
  {
    var r := Find(es, es[i].key);
    assert r.Some?;
    assert r.value == i;
  }

  lemma LookupMissing(es: seq<Entry>, k: string)
    ensures !Has(es, k) <==> forall i :: 0 <= i < |es| ==> es[i].key != k
    ensures !Has(es, k) <==> Lookup(es, k) == None
  {
    if Has(es, k) {
      var i := Find(es, k).value;
      assert es[i].key == k;
    }
  }

  lemma KeysIn(es: seq<Entry>, k: string)
    ensures Has(es, k) <==> k in Keys(es)
  {
    if k in Keys(es) {
      var i :| 0 <= i < |es| && Keys(es)[i] == k;
      assert es[i].key == k;
    }
    if Has(es, k) {
      var i := Find(es, k).value;
      assert Keys(es)[i] == k;
    }
  }

  // ---------------------------------------------------------------------
  // `set`

  /** `set` keeps keys unique, keeps the order of the keys, and appends a
      new key at the end. */
  lemma SetEntryKeys(es: seq<Entry>, k: string, s: Session)
    requires UniqueKeys(es)
    ensures UniqueKeys(SetEntry(es, k, s))
    ensures Keys(SetEntry(es, k, s)) == if Has(es, k) then Keys(es) else Keys(es) + [k]
  {
    var r := SetEntry(es, k, s);
    match Find(es, k)
    case Some(i) =>
      assert forall j :: 0 <= j < |r| ==> r[j].key == es[j].key;
    case None =>
      assert forall j :: 0 <= j < |es| ==> r[j] == es[j];
  }

  /** After `set(k, s)`, `get(k)` is `s`, and every other key maps as before. */
  lemma SetEntryLookup(es: seq<Entry>, k: string, s: Session, k': string)
    requires UniqueKeys(es)
    ensures Lookup(SetEntry(es, k, s), k') == if k' == k then Some(s) else Lookup(es, k')
  {
    var r := SetEntry(es, k, s);
    SetEntryKeys(es, k, s);
    var f := Find(es, k);
    var n := if f.Some? then f.value else |es|;
    assert n < |r| && r[n] == Entry(k, s);
    if k' == k {
      LookupAt(r, n);
    } else if Has(es, k') {
      var j := Find(es, k').value;
      assert j != n && r[j] == es[j];
      LookupAt(es, j);
      LookupAt(r, j);
    } else {
      forall i | 0 <= i < |r| ensures r[i].key != k' {
        if i != n {
          assert r[i] == es[i];
        }
      }
    }
  }

  // ---------------------------------------------------------------------
  // `delete`

  lemma {:induction false} RemoveKeyUnique(es: seq<Entry>, k: string)
    requires UniqueKeys(es)
    ensures UniqueKeys(RemoveKey(es, k))
  {
    if es != [] {
      var rest := RemoveKey(es[1..], k);
      RemoveKeyUnique(es[1..], k);
      forall j | 0 <= j < |rest| ensures rest[j].key != es[0].key {
        assert rest[j] in es[1..];
        var m :| 0 <= m < |es[1..]| && es[1..][m] == rest[j];
        assert es[m + 1] == rest[j];
      }
    }
  }

  /** After `delete(k)`, `get(k)` is undefined and every other key maps as before. */
  lemma RemoveKeyLookup(es: seq<Entry>, k: string, k': string)
    requires UniqueKeys(es)
    ensures Lookup(RemoveKey(es, k), k') == if k' == k then None else Lookup(es, k')
  {
    var r := RemoveKey(es, k);
    RemoveKeyUnique(es, k);
    if k' != k && Has(es, k') {
      var j := Find(es, k').value;
      LookupAt(es, j);
      assert es[j] in r;
      var m :| 0 <= m < |r| && r[m] == es[j];
      LookupAt(r, m);
    } else {
      forall i | 0 <= i < |r| ensures r[i].key != k' {
        assert r[i] in es;
      }
    }
  }

  /** Deleting a present key removes exactly one entry; deleting an absent
      one changes nothing. */
  lemma {:induction false} RemoveKeySize(es: seq<Entry>, k: string)
    requires UniqueKeys(es)
    ensures Has(es, k) ==> |RemoveKey(es, k)| == |es| - 1
    ensures !Has(es, k) ==> RemoveKey(es, k) == es
  {
    if es != [] {
      RemoveKeySize(es[1..], k);
      assert es == [es[0]] + es[1..];
      if es[0].key == k {
        assert !Has(es[1..], k) by {
          forall j | 0 <= j < |es[1..]| ensures es[1..][j].key != k {
            assert es[1..][j] == es[j + 1];
          }
        }
      } else {
        assert Has(es, k) <==> Has(es[1..], k) by {
          if Has(es, k) {
            var i := Find(es, k).value;
            assert es[1..][i - 1] == es[i];
          }
          if Has(es[1..], k) {
            var i := Find(es[1..], k).value;
            assert es[i + 1] == es[1..][i];
          }
        }
      }
    }
  }

  /** The first id left after deleting `k` is the first id other than `k`
      in insertion order. */
  lemma RemoveKeyFirst(es: seq<Entry>, k: string)
    requires UniqueKeys(es) && |es| >= 2
    ensures RemoveKey(es, k) != []
    ensures RemoveKey(es, k)[0] == if es[0].key == k then es[1] else es[0]
  {
    if es[0].key == k {
      assert es[1..][0] == es[1] && es[1].key != k;
      assert RemoveKey(es, k) == RemoveKey(es[1..], k);
    }
  }

  // ---------------------------------------------------------------------
  // Saved sessions

  /** The contents of the `neuralai_sessions` storage item: unreadable, or
      the id/session pairs of a JSON object in order. */
  datatype Stored = Corrupt | Saved(entries: seq<Entry>)

  /** `set` applied to the saved pairs in order. */
  function LoadAll(es: seq<Entry>, saved: seq<Entry>): seq<Entry>
  {
    if saved == [] then es
    else
      var last := saved[|saved| - 1];
      SetEntry(LoadAll(es, saved[..|saved| - 1]), last.key, last.session)
  }

  /** The store after loading: unchanged when saving is off, when nothing is
      stored, or when the stored text does not parse. */
  function Loaded(es: seq<Entry>, storage: Option<Stored>, enabled: bool): seq<Entry>
  {
    if !enabled then es
    else match storage
      case None => es
      case Some(Corrupt) => es
      case Some(Saved(saved)) => LoadAll(es, saved)
  }

  lemma {:induction false} LoadAllUnique(es: seq<Entry>, saved: seq<Entry>)
    requires UniqueKeys(es)
    ensures UniqueKeys(LoadAll(es, saved))
  {
    if saved != [] {
      LoadAllUnique(es, saved[..|saved| - 1]);
      var last := saved[|saved| - 1];
      SetEntryKeys(LoadAll(es, saved[..|saved| - 1]), last.key, last.session);
    }
  }

  /** Saving the store and loading it into an empty store gives the store
      back, order included. */
  lemma {:induction false} SaveLoadRoundTrip(es: seq<Entry>)
    requires UniqueKeys(es)
    ensures LoadAll([], es) == es
  {
    if es != [] {
      var init, last := es[..|es| - 1], es[|es| - 1];
      assert UniqueKeys(init);
      SaveLoadRoundTrip(init);
      assert !Has(init, last.key) by {
        forall j | 0 <= j < |init| ensures init[j].key != last.key {
          assert init[j] == es[j];
        }
      }
      assert init + [last] == es;
    }
  }

  /** The store `initializeSessions` ends with: the loaded store, or a
      single default session when that is empty. */
  function Initialized(es: seq<Entry>, storage: Option<Stored>, enabled: bool): (r: seq<Entry>)
    ensures r != []
  {
    var loaded := Loaded(es, storage, enabled);
    if loaded == [] then [Entry(DefaultSessionId, Session(DefaultSessionId, NewChatTitle, []))] else loaded
  }

  // ---------------------------------------------------------------------
  // The effect of sending a message

  /** There is a current session and it is in the store. */
  predicate HasCurrent(es: seq<Entry>, cur: Option<string>)
  {
    cur.Some? && Has(es, cur.value)
  }

  /** Stores with the same ids in the same order hold the same ids. */
  lemma SameKeys(es: seq<Entry>, es': seq<Entry>, cur: Option<string>)
    requires Keys(es) == Keys(es')
    ensures HasCurrent(es, cur) <==> HasCurrent(es', cur)
  {
    if cur.Some? {
      KeysIn(es, cur.value);
      KeysIn(es', cur.value);
    }
  }

  /** `addMessageToSession` for each of `ms`, on the current session. */
  function AppendTurns(es: seq<Entry>, cur: Option<string>, ms: seq<Message>): seq<Entry>
  {
    match cur
    case None => es
    case Some(k) =>
      match Lookup(es, k)
      case None => es
      case Some(s) => SetEntry(es, k, s.(messages := s.messages + ms))
  }

  /** `updateSessionTitle(k, title)`. */
  function Retitle(es: seq<Entry>, k: string, title: string): seq<Entry>
  {
    match Lookup(es, k)
    case None => es
    case Some(s) => SetEntry(es, k, s.(title := title))
  }

  /** The title rule of the send handler, checked once the user's message
      is in: a session holding just that message and still called
      `New Chat` is named after it. */
  function TitleRule(es: seq<Entry>, cur: Option<string>, message: string): seq<Entry>
  {
    match cur
    case None => es
    case Some(k) =>
      match Lookup(es, k)
      case None => es
      case Some(s) =>
        if |s.messages| == 1 && s.title == NewChatTitle then Retitle(es, k, GenerateSessionTitle(message)) else es
  }

  /** The store after a send: the user's turn, the title rule, then the
      bot's turns. */
  function AfterSend(es: seq<Entry>, cur: Option<string>, message: string, reply: seq<Message>): seq<Entry>
  {
    AppendTurns(TitleRule(AppendTurns(es, cur, [Message(User, message)]), cur, message), cur, reply)
  }

  /** Updating the current session only: keys, their order and the other
      sessions stay as they are. */
  lemma UpdateOne(es: seq<Entry>, k: string, s: Session)
    requires UniqueKeys(es) && Has(es, k)
    ensures UniqueKeys(SetEntry(es, k, s)) && Keys(SetEntry(es, k, s)) == Keys(es)
    ensures forall k' :: Lookup(SetEntry(es, k, s), k') == if k' == k then Some(s) else Lookup(es, k')
  {
    SetEntryKeys(es, k, s);
    forall k' ensures Lookup(SetEntry(es, k, s), k') == if k' == k then Some(s) else Lookup(es, k') {
      SetEntryLookup(es, k, s, k');
    }
  }

  /** `addMessageToSession`, repeated for `ms`: the current session gets
      exactly `ms` after its earlier turns; every other session, and the
      order of the ids, stay as they are; without a current session nothing
      changes. */
  lemma AppendTurnsEffect(es: seq<Entry>, cur: Option<string>, ms: seq<Message>)
    requires UniqueKeys(es)
    ensures UniqueKeys(AppendTurns(es, cur, ms)) && Keys(AppendTurns(es, cur, ms)) == Keys(es)
    ensures forall k' :: Some(k') != cur ==> Lookup(AppendTurns(es, cur, ms), k') == Lookup(es, k')
    ensures cur.Some? && Has(es, cur.value) ==>
              var s := Lookup(es, cur.value).value;
              Lookup(AppendTurns(es, cur, ms), cur.value) == Some(s.(messages := s.messages + ms))
    ensures cur.None? || !Has(es, cur.value) ==> AppendTurns(es, cur, ms) == es
  {
    if cur.Some? && Has(es, cur.value) {
      var s := Lookup(es, cur.value).value;
      UpdateOne(es, cur.value, s.(messages := s.messages + ms));
    }
  }

  /** Appending no turns changes nothing. */
  lemma AppendNothing(es: seq<Entry>, cur: Option<string>)
    requires UniqueKeys(es)
    ensures AppendTurns(es, cur, []) == es
  {
    if cur.Some? && Has(es, cur.value) {
      var i := Find(es, cur.value).value;
      var s := es[i].session;
      assert s.(messages := s.messages + []) == s;
      assert es[i := Entry(cur.value, s)] == es;
    }
  }

  lemma TitleRuleEffect(es: seq<Entry>, cur: Option<string>, message: string)
    requires UniqueKeys(es)
    ensures UniqueKeys(TitleRule(es, cur, message)) && Keys(TitleRule(es, cur, message)) == Keys(es)
    ensures forall k' :: Some(k') != cur ==> Lookup(TitleRule(es, cur, message), k') == Lookup(es, k')
    ensures cur.Some? && Has(es, cur.value) ==>
              var s := Lookup(es, cur.value).value;
              Lookup(TitleRule(es, cur, message), cur.value)
                == Some(if |s.messages| == 1 && s.title == NewChatTitle then s.(title := GenerateSessionTitle(message)) else s)
    ensures cur.None? || !Has(es, cur.value) ==> TitleRule(es, cur, message) == es
  {
    if cur.Some? && Has(es, cur.value) {
      var s := Lookup(es, cur.value).value;
      UpdateOne(es, cur.value, s.(title := GenerateSessionTitle(message)));
    }
  }

  /** A send touches the current session only: it receives the user's
      message and then the bot's turns after its earlier turns, and is
      named after the message when it was an untitled empty chat. The other
      sessions and the order of the ids stay as they are. Without a current
      session nothing changes. */
  lemma SendEffect(es: seq<Entry>, cur: Option<string>, message: string, reply: seq<Message>)
    requires UniqueKeys(es)
    ensures UniqueKeys(AfterSend(es, cur, message, reply)) && Keys(AfterSend(es, cur, message, reply)) == Keys(es)
    ensures forall k' :: Some(k') != cur ==> Lookup(AfterSend(es, cur, message, reply), k') == Lookup(es, k')
    ensures cur.Some? && Has(es, cur.value) ==>
              var s := Lookup(es, cur.value).value;
              Lookup(AfterSend(es, cur, message, reply), cur.value)
                == Some(Session(s.id,
                                if s.messages == [] && s.title == NewChatTitle then GenerateSessionTitle(message) else s.title,
                                s.messages + [Message(User, message)] + reply))
    ensures cur.None? || !Has(es, cur.value) ==> AfterSend(es, cur, message, reply) == es
  {
    var a := AppendTurns(es, cur, [Message(User, message)]);
    AppendTurnsEffect(es, cur, [Message(User, message)]);
    var b := TitleRule(a, cur, message);
    TitleRuleEffect(a, cur, message);
    AppendTurnsEffect(b, cur, reply);
    if cur.Some? && Has(es, cur.value) {
      var k := cur.value;
      KeysIn(es, k);
      KeysIn(a, k);
      KeysIn(b, k);
    }
  }
}

/** The server's frames read by the client: when every frame arrives as a
    chunk of its own and the client's JSON parser reads back what the
    server's encoder wrote, the client commits exactly the reply the server
    records in its history, and commits nothing when the server sends its
    error frame. */
module EndToEnd {
  import opened Text
  import opened StreamConsumer
  import opened Backend
  import Sessions
  import SessionStore

  /** The server's JSON encoding writes no line break, and the client's
      parser reads its objects back: a content object as its content and
      `done`, an error object as its error and `done`. */
  ghost predicate WireAgrees(parse: string -> Frame, dumps: Reply -> string)
  {
    (forall r :: '\n' !in dumps(r))
    && (forall c, d :: parse(dumps(ContentReply(c, d))) == Payload([], c, d))
    && (forall e, d :: parse(dumps(ErrorReply(e, d))) == Payload(e, [], d))
  }

  /** What one server object does to the client's read state. */
  function ReplyEffect(r: Reader, rep: Reply): Reader
  {
    if r.done then r
    else match rep
      case ContentReply(c, d) => Reader(if c != [] then r.text + c else r.text, d)
      case ErrorReply(e, d) => if e != [] then r else Reader(r.text, d)
  }

  /** The client's read state after the server's objects. */
  function ClientView(rs: seq<Reply>): Reader
  {
    if rs == [] then Start else ReplyEffect(ClientView(rs[..|rs| - 1]), rs[|rs| - 1])
  }

  /** A frame splits into its data line and two empty lines. */
  lemma FrameLines(dumps: Reply -> string, rep: Reply)
    requires '\n' !in dumps(rep)
    ensures SplitOn(WireFrame(dumps, rep), LineBreak) == ["data: " + dumps(rep), [], []]
  {
    var a := "data: " + dumps(rep);
    assert '\n' !in a by {
      forall i | 0 <= i < |a| ensures a[i] != '\n' {
        if i >= 6 {
          assert a[i] == dumps(rep)[i - 6];
        }
      }
    }
    assert WireFrame(dumps, rep) == a + ['\n'] + "\n";
    SplitConsChar(a, "\n", '\n');
    assert "\n" == [] + ['\n'] + [];
    SplitConsChar([], [], '\n');
    SplitNoSep([], "\n");
  }

  /** One frame, read as a chunk, has the effect of its object. */
  lemma FrameStep(parse: string -> Frame, dumps: Reply -> string, r: Reader, rep: Reply)
    requires WireAgrees(parse, dumps)
    ensures LinesFold(parse, r, SplitOn(WireFrame(dumps, rep), LineBreak)) == ReplyEffect(r, rep)
  {
    FrameLines(dumps, rep);
    var a := "data: " + dumps(rep);
    var empty: string := [];
    var lines := [a, empty, empty];
    assert a[..|DataPrefix|] == DataPrefix && a[|DataPrefix|..] == dumps(rep);
    assert !StartsWith(empty, DataPrefix);
    assert lines[..2] == [a, empty] && [a, empty][..1] == [a] && [a][..0] == [];
    assert LinesFold(parse, r, [a]) == LineStep(parse, r, a);
    assert LinesFold(parse, r, lines) == LineStep(parse, r, a);
  }

  /** Frames sent one per chunk are read as their objects. */
  lemma {:induction false} WireView(parse: string -> Frame, dumps: Reply -> string, rs: seq<Reply>)
    requires WireAgrees(parse, dumps)
    ensures StreamState(parse, Framed(dumps, rs)) == ClientView(rs)
  {
    if rs != [] {
      var n := |rs|;
      var frames := Framed(dumps, rs);
      assert frames[..n - 1] == Framed(dumps, rs[..n - 1]);
      WireView(parse, dumps, rs[..n - 1]);
      FrameStep(parse, dumps, ClientView(rs[..n - 1]), rs[n - 1]);
    }
  }

  lemma ClientViewSnoc(rs: seq<Reply>, rep: Reply)
    ensures ClientView(rs + [rep]) == ReplyEffect(ClientView(rs), rep)
  {
    assert (rs + [rep])[..|rs|] == rs;
  }

  /** The content frames of a reply leave the client holding the whole
      text, not yet committed. */
  lemma {:induction false} ContentView(chunks: seq<Chunk>)
    ensures ClientView(ContentReplies(chunks)) == Reader(ResponseText(chunks), false)
  {
    if chunks != [] {
      var init := chunks[..|chunks| - 1];
      var c := chunks[|chunks| - 1].content;
      ContentView(init);
      if c != [] {
        ClientViewSnoc(ContentReplies(init), ContentReply(c, false));
      } else {
        assert ContentReplies(chunks) == ContentReplies(init) + [] == ContentReplies(init);
        assert ResponseText(chunks) == ResponseText(init) + c == ResponseText(init);
        assert ClientView(ContentReplies(chunks)) == ClientView(ContentReplies(init));
      }
    }
  }

  /** The client's read state after the whole reply: the text the server
      streamed, committed exactly when the reply completes. */
  lemma ReplyReachesClient(parse: string -> Frame, dumps: Reply -> string, chunks: seq<Chunk>, fails: bool)
    requires WireAgrees(parse, dumps)
    ensures StreamState(parse, Framed(dumps, Replies(chunks, fails)))
            == Reader(ResponseText(Streamed(chunks)), Completes(chunks, fails))
    ensures StreamOutcome(parse, Framed(dumps, Replies(chunks, fails)), false)
            == if Completes(chunks, fails) then Committed(ResponseText(Streamed(chunks))) else EndedWithoutDone
  {
    var rs := Replies(chunks, fails);
    WireView(parse, dumps, rs);
    ContentView(Streamed(chunks));
    ClientViewSnoc(ContentReplies(Streamed(chunks)), rs[|rs| - 1]);
    assert ContentReplies(Streamed(chunks)) + [rs[|rs| - 1]] == rs;
  }

  /** The turn the client adds is the reply the server records: on success
      a bot turn holding the streamed text, which is also the assistant
      entry of the server's history; after the server's error frame, no
      bot turn at all, not even the offline notice. */
  lemma SessionGetsServerReply(parse: string -> Frame, dumps: Reply -> string, chunks: seq<Chunk>, fails: bool)
    requires WireAgrees(parse, dumps)
    ensures var reply := Sessions.Streamed(Framed(dumps, Replies(chunks, fails)), false);
            Sessions.BotTurns(parse, reply)
            == if Completes(chunks, fails) then [SessionStore.Message(SessionStore.Bot, ResponseText(Streamed(chunks)))] else []
    ensures Sessions.ConnectedAfter(parse, Sessions.Streamed(Framed(dumps, Replies(chunks, fails)), false), true)
  {
    ReplyReachesClient(parse, dumps, chunks, fails);
  }
}

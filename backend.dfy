/** The server side of the chat: the bounded conversation history of
    `ChatBot`, the assembly of the messages sent to the model, the keyword
    tests that pick the time or the SREC prompt, the documents built from
    the question-and-answer data, the `data: <json>` framing of a streamed
    reply, and the validation of a `/chat` request.

    The language model, the embedding index and the clock are outside the
    model: the model's reply is a sequence of chunks given as a parameter,
    the retrieval result is an optional context string, and the clock
    readings are opaque stamps. */
module Backend {
  import opened Text

  // ---------------------------------------------------------------------
  // Messages and the history

  /** A clock reading: `get_ist_time()` and `get_ist_date()`. */
  datatype Stamp = Stamp(time: string, date: string)

  /** A chat message; entries of the history also carry their timestamp. */
  datatype Turn = Turn(role: string, content: string, stamp: Option<Stamp>)

  const UserRole: string := "user"
  const AssistantRole: string := "assistant"
  const SystemRole: string := "system"

  /** `max_history`; the history keeps twice as many entries. */
  const MaxHistory: nat := 10
  const HistoryCap: nat := MaxHistory * 2

  function UserTurn(message: string): Turn
  {
    Turn(UserRole, message, None)
  }

  /** What is left of `full` once only the most recent `HistoryCap`
      entries are kept. */
  function Kept(full: seq<Turn>): (r: seq<Turn>)
    ensures |r| == if |full| > HistoryCap then HistoryCap else |full|
    ensures r == full[|full| - |r|..]
  {
    if |full| > HistoryCap then full[|full| - HistoryCap..] else full
  }

  /** After an entry is kept, the history is within its bound and ends
      with that entry. */
  lemma KeptEndsWith(h: seq<Turn>, t: Turn)
    ensures var r := Kept(h + [t]);
            1 <= |r| <= HistoryCap && r[|r| - 1] == t
            && (|h| < HistoryCap ==> r == h + [t])
  {
    var full := h + [t];
    var r := Kept(full);
    assert r[|r| - 1] == full[|full| - 1];
  }

  // ---------------------------------------------------------------------
  // Keyword tests

  const TimeKeywords: seq<string> :=
    ["time", "current time", "ist", "indian standard time", "what time", "what's the time", "date", "today"]

  const SrecKeywords: seq<string> := [
    "srec", "sree rama", "rama engineering", "college", "tirupathi",
    "engineering", "jntua", "rami reddy", "principal", "department",
    "faculty", "admission", "courses", "placement", "campus", "fees",
    "hostel", "library", "laboratory", "sports", "placement", "faculty",
    "hod", "chairman", "address", "contact", "phone", "email", "website"]

  /** Python `any(k in text for k in keywords)`. */
  function AnyKeyword(keywords: seq<string>, text: string): (r: bool)
    ensures r <==> exists i :: 0 <= i < |keywords| && Contains(text, keywords[i])
  {
    if keywords == [] then false
    else if Contains(text, keywords[0]) then true
    else
      var r := AnyKeyword(keywords[1..], text);
      assert r ==> exists i :: 0 <= i < |keywords| && Contains(text, keywords[i]) by {
        if r {
          var i :| 0 <= i < |keywords[1..]| && Contains(text, keywords[1..][i]);
          assert Contains(text, keywords[i + 1]);
        }
      }
      assert (exists i :: 0 <= i < |keywords| && Contains(text, keywords[i])) ==> r by {
        if exists i :: 0 <= i < |keywords| && Contains(text, keywords[i]) {
          var i :| 0 <= i < |keywords| && Contains(text, keywords[i]);
          assert i != 0;
          assert keywords[1..][i - 1] == keywords[i];
        }
      }
      r
  }

  /** The time test of `get_context_messages`. */
  predicate IsTimeQuestion(message: string)
  {
    AnyKeyword(TimeKeywords, Lower(message))
  }

  /** `is_srec_question`. */
  predicate IsSrecQuestion(query: string)
  {
    AnyKeyword(SrecKeywords, Lower(query))
  }

  lemma LowerLower(s: string)
    ensures Lower(Lower(s)) == Lower(s)
  {
    var l := Lower(s);
    forall i | 0 <= i < |s| ensures Lower(l)[i] == l[i] {
      assert l[i] == LowerChar(s[i]);
    }
  }

  /** The keyword tests ignore case: a query and its lowered form are
      answered alike, and a query is an SREC question exactly when one of
      the keywords occurs in it once lowered. */
  lemma KeywordTestsIgnoreCase(q: string)
    ensures IsSrecQuestion(Lower(q)) == IsSrecQuestion(q)
    ensures IsTimeQuestion(Lower(q)) == IsTimeQuestion(q)
    ensures IsSrecQuestion(q) <==> exists i :: 0 <= i < |SrecKeywords| && Contains(Lower(q), SrecKeywords[i])
  {
    LowerLower(q);
  }

  /** One keyword occurring is enough. */
  lemma KeywordHit(keywords: seq<string>, i: nat, text: string, k: nat)
    requires i < |keywords| && OccursAt(text, keywords[i], k)
    ensures AnyKeyword(keywords, text)
  {
  }

  /** Keywords are matched anywhere inside words: any message holding
      `ist` once lowered (`list`, `history`, `assistant`, `distance`) is a
      time question, whatever else it asks. */
  lemma IstInsideWords(message: string)
    requires Contains(Lower(message), "ist")
    ensures IsTimeQuestion(message)
  {
    assert TimeKeywords[2] == "ist";
  }

  /** `List` is such a message. */
  lemma ListIsTimeQuestion()
    ensures IsTimeQuestion("List")
  {
    assert Lower("List") == "list" by {
      assert Lower("List")[0] == LowerChar('L');
    }
    assert OccursAt("list", "ist", 1);
    IstInsideWords("List");
  }

  // ---------------------------------------------------------------------
  // Context assembly

  function TimeMessage(clock: Stamp): Turn
  {
    Turn(SystemRole,
      "You are an AI assistant. The current time in IST is " + clock.time + " and the date is " + clock.date
      + ". Format your response professionally and include both time and date.",
      None)
  }

  const SrecPromptHead: string :=
    "You are a helpful assistant with detailed knowledge about Sree Rama Engineering College (SREC). \n"
    + "Use the following specific information to answer questions about SREC accurately:\n\n"

  const SrecPromptTail: string :=
    "\n\nImportant guidelines:\n"
    + "1. Answer questions about SREC using ONLY the provided context above\n"
    + "2. Be specific and accurate with details like names, numbers, dates, and contact information\n"
    + "3. If asked about SREC but the specific information is not in the context, say \"I don't have that specific information about SREC\"\n"
    + "4. For general questions not about SREC, respond normally as a helpful AI assistant\n"
    + "5. Always be helpful and provide complete answers when possible"

  function SrecMessage(context: string): Turn
  {
    Turn(SystemRole, SrecPromptHead + context + SrecPromptTail, None)
  }

  /** Whether the SREC prompt is added: an SREC question for which the
      retrieval returned a non-empty context. */
  predicate UsesRetrieval(message: string, rag: Option<string>)
  {
    IsSrecQuestion(message) && rag.Some? && rag.value != []
  }

  // ---------------------------------------------------------------------
  // Documents from the question-and-answer data

  datatype Qa = Qa(question: string, answer: string)
  datatype Meta = Meta(id: nat, question: string, answer: string)

  const QuestionTag: string := "Q: "
  const AnswerTag: string := "\nA: "

  function DocText(qa: Qa): string
  {
    QuestionTag + qa.question + AnswerTag + qa.answer
  }

  /** Reads a document back: the question runs up to the first `\nA: `. */
  function ParseDoc(text: string): Option<Qa>
  {
    if !StartsWith(text, QuestionTag) then None
    else match FindFrom(text, AnswerTag, |QuestionTag|)
      case None => None
      case Some(k) => Some(Qa(text[|QuestionTag|..k], text[k + |AnswerTag|..]))
  }

  /** Where the parts of a document sit. */
  lemma DocLayout(qa: Qa)
    ensures var text := DocText(qa);
            var k := |QuestionTag| + |qa.question|;
            |text| == k + |AnswerTag| + |qa.answer|
            && StartsWith(text, QuestionTag)
            && text[|QuestionTag|..k] == qa.question
            && text[k + |AnswerTag|..] == qa.answer
            && OccursAt(text, AnswerTag, k)
            && forall m :: |QuestionTag| <= m < k ==> text[m] == qa.question[m - |QuestionTag|]
  {
    var text := DocText(qa);
    var k := |QuestionTag| + |qa.question|;
    assert text[..|QuestionTag|] == QuestionTag;
    forall j | 0 <= j < |AnswerTag| ensures text[k + j] == AnswerTag[j] {
    }
  }

  /** A document gives back its question and answer whenever the question
      has no line break. */
  lemma DocTextRoundTrip(qa: Qa)
    requires '\n' !in qa.question
    ensures ParseDoc(DocText(qa)) == Some(qa)
  {
    var text := DocText(qa);
    var q := qa.question;
    var n := |QuestionTag|;
    var k := n + |q|;
    DocLayout(qa);
    forall m | n <= m < k ensures !OccursAt(text, AnswerTag, m) {
      assert text[m + 0] == q[m - n];
      assert q[m - n] in q;
      assert AnswerTag[0] == '\n';
    }
    FindFromFirst(text, AnswerTag, n, k);
  }

  /** `make_docs_from_qa`: one text and one record per entry, in order. */
  method MakeDocsFromQa(qaList: seq<Qa>) returns (texts: seq<string>, metas: seq<Meta>)
    ensures |texts| == |qaList| && |metas| == |qaList|
    ensures forall i :: 0 <= i < |qaList| ==> texts[i] == DocText(qaList[i])
    ensures forall i :: 0 <= i < |qaList| ==> metas[i] == Meta(i, qaList[i].question, qaList[i].answer)
  {
    texts := [];
    metas := [];
    var i := 0;
    while i < |qaList|
      invariant i <= |qaList| && |texts| == i && |metas| == i
      invariant forall j :: 0 <= j < i ==> texts[j] == DocText(qaList[j])
      invariant forall j :: 0 <= j < i ==> metas[j] == Meta(j, qaList[j].question, qaList[j].answer)
    {
      var qa := qaList[i];
      texts := texts + [QuestionTag + qa.question + AnswerTag + qa.answer];
      metas := metas + [Meta(i, qa.question, qa.answer)];
      i := i + 1;
    }
  }

  // ---------------------------------------------------------------------
  // The streamed reply

  /** One chunk of the model's stream: its `done` flag and its
      `message.content`, absent fields read as `false` and the empty
      string. */
  datatype Chunk = Chunk(done: bool, content: string)

  /** The JSON objects the server sends. */
  datatype Reply = ContentReply(content: string, done: bool) | ErrorReply(error: string, done: bool)

  const ErrorText: string := "Sorry, I encountered an error while generating the response. Please try again."

  /** The position of the first `done` chunk, or the length when none. */
  function FirstDone(chunks: seq<Chunk>, from: nat := 0): (r: nat)
    requires from <= |chunks|
    ensures from <= r <= |chunks|
    ensures forall j :: from <= j < r ==> !chunks[j].done
    ensures r < |chunks| ==> chunks[r].done
    decreases |chunks| - from
  {
    if from == |chunks| || chunks[from].done then from else FirstDone(chunks, from + 1)
  }

  /** The content frames for the chunks before the first `done` one: one
      per chunk with non-empty content. */
  function ContentReplies(chunks: seq<Chunk>): seq<Reply>
  {
    if chunks == [] then []
    else
      var c := chunks[|chunks| - 1].content;
      ContentReplies(chunks[..|chunks| - 1]) + if c != [] then [ContentReply(c, false)] else []
  }

  /** The concatenated contents of the chunks. */
  function ResponseText(chunks: seq<Chunk>): string
  {
    if chunks == [] then [] else ResponseText(chunks[..|chunks| - 1]) + chunks[|chunks| - 1].content
  }

  /** The chunks the server reads before it stops. */
  function Streamed(chunks: seq<Chunk>): seq<Chunk>
  {
    chunks[..FirstDone(chunks)]
  }

  /** Whether the reply completes: a `done` chunk arrives, or the stream
      ends without failing. `fails` says whether reading the stream raises
      after the given chunks instead of ending. */
  predicate Completes(chunks: seq<Chunk>, fails: bool)
  {
    FirstDone(chunks) < |chunks| || !fails
  }

  /** The objects `generate_response` yields. */
  function Replies(chunks: seq<Chunk>, fails: bool): seq<Reply>
  {
    ContentReplies(Streamed(chunks))
    + [if Completes(chunks, fails) then ContentReply([], true) else ErrorReply(ErrorText, true)]
  }

  /** One frame on the wire. */
  function WireFrame(dumps: Reply -> string, r: Reply): string
  {
    "data: " + dumps(r) + "\n\n"
  }

  function Framed(dumps: Reply -> string, rs: seq<Reply>): (frames: seq<string>)
    ensures |frames| == |rs|
    ensures forall i :: 0 <= i < |rs| ==> frames[i] == WireFrame(dumps, rs[i])
  {
    seq(|rs|, i requires 0 <= i < |rs| => WireFrame(dumps, rs[i]))
  }

  lemma FramedSnoc(dumps: Reply -> string, rs: seq<Reply>, r: Reply)
    ensures Framed(dumps, rs + [r]) == Framed(dumps, rs) + [WireFrame(dumps, r)]
  {
  }

  lemma {:induction false} ContentRepliesShape(chunks: seq<Chunk>)
    ensures forall i :: 0 <= i < |ContentReplies(chunks)| ==>
              ContentReplies(chunks)[i].ContentReply? && !ContentReplies(chunks)[i].done
              && ContentReplies(chunks)[i].content != []
  {
    if chunks != [] {
      ContentRepliesShape(chunks[..|chunks| - 1]);
    }
  }

  /** The frames of a reply: content frames, each with non-empty content
      and not `done`, then exactly one `done` frame, last; the final frame
      is the empty content frame when the reply completes and the error
      frame otherwise. */
  lemma RepliesShape(chunks: seq<Chunk>, fails: bool)
    ensures var rs := Replies(chunks, fails);
            |rs| >= 1 && rs[|rs| - 1].done
            && (forall i :: 0 <= i < |rs| - 1 ==> rs[i].ContentReply? && !rs[i].done && rs[i].content != [])
            && (Completes(chunks, fails) ==> rs[|rs| - 1] == ContentReply([], true))
            && (!Completes(chunks, fails) ==> rs[|rs| - 1] == ErrorReply(ErrorText, true))
  {
    ContentRepliesShape(Streamed(chunks));
  }

  /** Every frame is `data: `, the JSON text, and a blank line. */
  lemma FrameShape(dumps: Reply -> string, r: Reply)
    ensures var f := WireFrame(dumps, r);
            StartsWith(f, "data: ") && |f| >= 8 && f[|f| - 2..] == "\n\n"
            && f[6..|f| - 2] == dumps(r)
  {
  }

  // ---------------------------------------------------------------------
  // The chat request

  /** The `message` field of a JSON request body. */
  datatype Field = Str(s: string) | NotString

  /** A request body as `get_json` reads it: missing or falsy (`NoBody`),
      not parsable as JSON (`Malformed`), an object with or without a
      `message` field, a non-empty string, a non-empty list (whether one of
      its items is the string `message`), or a non-zero number or `true`
      (`Scalar`). */
  datatype ChatRequest =
    | NoBody
    | Malformed
    | Body(message: Option<Field>)
    | Text(t: string)
    | List(holdsMessage: bool)
    | Scalar

  /** The outcome of the checks at the top of `chat`. */
  datatype Checked = Accepted(message: string) | Rejected(status: nat, error: string)

  const MessageRequired: string := "Message is required"
  const MessageEmpty: string := "Message cannot be empty"
  const InternalError: string := "Internal server error"

  /** The name of the field the request must carry. */
  const MessageKey: string := "message"

  /** `chat`'s validation: 400 without a message, 400 for a blank one,
      otherwise the stripped message. Python's `in` is a key test on an
      object, a substring test on a string and an item test on a list, and
      raises on a number; `data['message']` raises on a string or a list,
      and `strip` on a message that is not a string. Every such exception,
      like an unparsable body, reaches the handler's catch-all: 500. */
  function ValidateChat(req: ChatRequest): Checked
  {
    match req
    case NoBody => Rejected(400, MessageRequired)
    case Malformed => Rejected(500, InternalError)
    case Scalar => Rejected(500, InternalError)
    case Text(t) => if Contains(t, MessageKey) then Rejected(500, InternalError) else Rejected(400, MessageRequired)
    case List(holdsMessage) => if holdsMessage then Rejected(500, InternalError) else Rejected(400, MessageRequired)
    case Body(None) => Rejected(400, MessageRequired)
    case Body(Some(NotString)) => Rejected(500, InternalError)
    case Body(Some(Str(s))) =>
      var m := Strip(s);
      if m == [] then Rejected(400, MessageEmpty) else Accepted(m)
  }

  /** Whether reading the request raises before any check answers: the
      body does not parse, `in` meets a number, `data['message']` indexes
      a string or a list, or `strip` meets a message that is not a string. */
  predicate ReadRaises(req: ChatRequest)
  {
    req.Malformed? || req.Scalar?
    || (req.Text? && exists m :: 0 <= m <= |req.t| - |MessageKey| && OccursAt(req.t, MessageKey, m))
    || (req.List? && req.holdsMessage)
    || (req.Body? && req.message == Some(NotString))
  }

  /** A request is accepted exactly when it is an object whose message is a
      string holding something other than whitespace; the answer is 500
      exactly when reading the request raises; every other request is
      rejected with 400 and the error of its case. */
  lemma ValidateChatCases(req: ChatRequest)
    ensures ValidateChat(req).Accepted? ==> req.Body? && req.message.Some? && req.message.value.Str?
    ensures ValidateChat(req).Rejected? ==>
              (ValidateChat(req).status == 500 <==> ReadRaises(req))
              && (ValidateChat(req).status == 500 ==> ValidateChat(req).error == InternalError)
              && (ValidateChat(req).status != 500 ==> ValidateChat(req).status == 400)
    ensures (req.NoBody? || (req.Body? && req.message.None?)) ==> ValidateChat(req) == Rejected(400, MessageRequired)
    ensures req.Body? && req.message == Some(NotString) ==> ValidateChat(req) == Rejected(500, InternalError)
    ensures req.Body? && req.message.Some? && req.message.value.Str? ==>
              var s := req.message.value.s;
              (ValidateChat(req).Accepted? <==> exists i :: 0 <= i < |s| && !IsPySpace(s[i]))
              && (ValidateChat(req).Rejected? ==> ValidateChat(req) == Rejected(400, MessageEmpty))
    ensures ValidateChat(req).Accepted? ==>
              var m := ValidateChat(req).message;
              m != [] && !IsPySpace(m[0]) && !IsPySpace(m[|m| - 1])
  {
    if req.Body? && req.message.Some? && req.message.value.Str? {
      StripEmpty(req.message.value.s);
    }
  }

  // ---------------------------------------------------------------------
  // The chat bot

  class ChatBot {
    var conversationHistory: seq<Turn>

    constructor()
      ensures conversationHistory == []
    {
      conversationHistory := [];
    }

    /** `add_to_history`: append the entry, then keep only the most
        recent `HistoryCap` entries. */
    method AddToHistory(role: string, content: string, stamp: Stamp)
      modifies this`conversationHistory
      ensures conversationHistory == Kept(old(conversationHistory) + [Turn(role, content, Some(stamp))])
    {
      conversationHistory := conversationHistory + [Turn(role, content, Some(stamp))];
      if |conversationHistory| > HistoryCap {
        conversationHistory := conversationHistory[|conversationHistory| - HistoryCap..];
      }
    }

    /** `get_context_messages`: a time question gets the time prompt and
        no history; otherwise the history, preceded by the SREC prompt when
        retrieval found context. The message itself always comes last, and
        the history is left as it was. `clock` is read only for a time
        question, `rag` is what retrieval returns for the message. */
    method GetContextMessages(userMessage: string, clock: Stamp, rag: Option<string>) returns (messages: seq<Turn>)
      ensures |messages| >= 1 && messages[|messages| - 1] == UserTurn(userMessage)
      ensures IsTimeQuestion(userMessage) ==> messages == [TimeMessage(clock), UserTurn(userMessage)]
      ensures !IsTimeQuestion(userMessage) && UsesRetrieval(userMessage, rag) ==>
                messages == [SrecMessage(rag.value)] + conversationHistory + [UserTurn(userMessage)]
      ensures !IsTimeQuestion(userMessage) && !UsesRetrieval(userMessage, rag) ==>
                messages == conversationHistory + [UserTurn(userMessage)]
    {
      messages := conversationHistory;
      if IsTimeQuestion(userMessage) {
        messages := [TimeMessage(clock)];
        messages := messages + [UserTurn(userMessage)];
        return;
      }
      if IsSrecQuestion(userMessage) {
        if rag.Some? && rag.value != [] {
          messages := [SrecMessage(rag.value)] + messages;
        }
      }
      messages := messages + [UserTurn(userMessage)];
    }

    /** The `generate_response` generator: a content frame per non-empty
        chunk before the first `done` chunk, then the closing `done` frame,
        and the message and the reply recorded in the history; when the
        stream fails first, the error frame instead and no history. */
    method GenerateResponse(dumps: Reply -> string, userMessage: string, chunks: seq<Chunk>, fails: bool,
                            userStamp: Stamp, botStamp: Stamp)
      returns (frames: seq<string>)
      modifies this`conversationHistory
      ensures frames == Framed(dumps, Replies(chunks, fails))
      ensures Completes(chunks, fails) ==>
                conversationHistory == Kept(Kept(old(conversationHistory) + [Turn(UserRole, userMessage, Some(userStamp))])
                                            + [Turn(AssistantRole, ResponseText(Streamed(chunks)), Some(botStamp))])
      ensures !Completes(chunks, fails) ==> conversationHistory == old(conversationHistory)
    {
      var responseContent := "";
      ghost var sent: seq<Reply> := [];
      frames := [];
      var i := 0;
      while i < |chunks| && !chunks[i].done
        invariant i <= FirstDone(chunks)
        invariant sent == ContentReplies(chunks[..i]) && frames == Framed(dumps, sent)
        invariant responseContent == ResponseText(chunks[..i])
        invariant conversationHistory == old(conversationHistory)
      {
        assert chunks[..i + 1][..i] == chunks[..i];
        var content := chunks[i].content;
        if content != [] {
          responseContent := responseContent + content;
          FramedSnoc(dumps, sent, ContentReply(content, false));
          sent := sent + [ContentReply(content, false)];
          frames := frames + [WireFrame(dumps, ContentReply(content, false))];
        }
        i := i + 1;
      }
      assert i == FirstDone(chunks);
      if i == |chunks| && fails {
        FramedSnoc(dumps, sent, ErrorReply(ErrorText, true));
        frames := frames + [WireFrame(dumps, ErrorReply(ErrorText, true))];
        return;
      }
      AddToHistory(UserRole, userMessage, userStamp);
      AddToHistory(AssistantRole, responseContent, botStamp);
      FramedSnoc(dumps, sent, ContentReply([], true));
      frames := frames + [WireFrame(dumps, ContentReply([], true))];
    }
  }
}

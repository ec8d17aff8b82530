/** The read loop of the browser client's streaming send: each chunk of the
    response body is split at `\n`, every line starting with `data: ` is
    parsed as a frame, the non-empty `content` of each frame is appended to
    the reply, and the first frame with `done` commits the reply.

    Lines are decided chunk by chunk: a line cut by a chunk boundary is
    not reassembled. A frame that fails to parse, or one carrying `error`,
    raises an exception that the loop's own handler swallows, so it is
    skipped and reading goes on. */
module StreamConsumer {
  import opened Text

  const DataPrefix: string := "data: "
  const LineBreak: string := "\n"

  /** A line's payload after JSON parsing: `Malformed` when parsing throws;
      otherwise the `error`, `content` and `done` fields, with an absent
      or falsy field read as the empty string or `false`. */
  datatype Frame = Malformed | Payload(error: string, content: string, done: bool)

  /** The loop's state: the reply so far, and whether a `done` frame has
      committed it. */
  datatype Reader = Reader(text: string, done: bool)

  const Start: Reader := Reader([], false)

  /** What one line does to the state. */
  function LineStep(parse: string -> Frame, r: Reader, line: string): Reader
  {
    if r.done || !StartsWith(line, DataPrefix) then r
    else match parse(line[|DataPrefix|..])
      case Malformed => r
      case Payload(error, content, done) =>
        if error != [] then r
        else Reader(if content != [] then r.text + content else r.text, done)
  }

  /** The lines of one chunk, in order. */
  function LinesFold(parse: string -> Frame, r: Reader, lines: seq<string>): Reader
  {
    if lines == [] then r
    else LineStep(parse, LinesFold(parse, r, lines[..|lines| - 1]), lines[|lines| - 1])
  }

  /** The state after the chunks, each split at line breaks on its own. */
  function StreamState(parse: string -> Frame, chunks: seq<string>): Reader
  {
    if chunks == [] then Start
    else LinesFold(parse, StreamState(parse, chunks[..|chunks| - 1]), SplitOn(chunks[|chunks| - 1], LineBreak))
  }

  /** How a streaming send ends: a reply committed to the session, a body
      that ended without `done` (nothing committed), or a read that failed
      (the partial reply is discarded and the offline notice shown). */
  datatype StreamEnd = Committed(text: string) | EndedWithoutDone | ReadFailed

  /** The end of a stream of `chunks`; `broken` says whether reading fails
      after the last of them instead of reporting the end of the body. */
  function StreamOutcome(parse: string -> Frame, chunks: seq<string>, broken: bool): StreamEnd
  {
    var s := StreamState(parse, chunks);
    if s.done then Committed(s.text) else if broken then ReadFailed else EndedWithoutDone
  }

  // ---------------------------------------------------------------------
  // Unfolding the folds.

  lemma LinesFoldStep(parse: string -> Frame, r: Reader, lines: seq<string>, j: nat)
    requires j < |lines|
    ensures LinesFold(parse, r, lines[..j + 1]) == LineStep(parse, LinesFold(parse, r, lines[..j]), lines[j])
  {
    assert lines[..j + 1][..j] == lines[..j];
  }

  lemma {:induction false} LinesFoldAppend(parse: string -> Frame, r: Reader, a: seq<string>, b: seq<string>)
    ensures LinesFold(parse, r, a + b) == LinesFold(parse, LinesFold(parse, r, a), b)
  {
    if b == [] {
      assert a + b == a;
    } else {
      var b' := b[..|b| - 1];
      LinesFoldAppend(parse, r, a, b');
      assert (a + b)[..|a + b| - 1] == a + b';
    }
  }

  /** Once committed, the state no longer changes. */
  lemma {:induction false} LinesFoldDone(parse: string -> Frame, r: Reader, lines: seq<string>)
    requires r.done
    ensures LinesFold(parse, r, lines) == r
  {
    if lines != [] {
      LinesFoldDone(parse, r, lines[..|lines| - 1]);
    }
  }

  lemma LinesFoldRest(parse: string -> Frame, r: Reader, lines: seq<string>, j: nat)
    requires j <= |lines| && LinesFold(parse, r, lines[..j]).done
    ensures LinesFold(parse, r, lines) == LinesFold(parse, r, lines[..j])
  {
    assert lines == lines[..j] + lines[j..];
    LinesFoldAppend(parse, r, lines[..j], lines[j..]);
    LinesFoldDone(parse, LinesFold(parse, r, lines[..j]), lines[j..]);
  }

  lemma StreamStateStep(parse: string -> Frame, chunks: seq<string>, c: nat)
    requires c < |chunks|
    ensures StreamState(parse, chunks[..c + 1])
         == LinesFold(parse, StreamState(parse, chunks[..c]), SplitOn(chunks[c], LineBreak))
  {
    assert chunks[..c + 1][..c] == chunks[..c];
  }

  /** Once committed, later chunks are not read. */
  lemma {:induction false} StreamStateRest(parse: string -> Frame, chunks: seq<string>, c: nat)
    requires c <= |chunks| && StreamState(parse, chunks[..c]).done
    ensures StreamState(parse, chunks) == StreamState(parse, chunks[..c])
    decreases |chunks|
  {
    if c < |chunks| {
      var init := chunks[..|chunks| - 1];
      assert init[..c] == chunks[..c];
      StreamStateRest(parse, init, c);
      LinesFoldDone(parse, StreamState(parse, init), SplitOn(chunks[|chunks| - 1], LineBreak));
    } else {
      assert chunks[..c] == chunks;
    }
  }

  // ---------------------------------------------------------------------
  // The loop.

  /** The read loop over the chunks the body delivers. `botMessage` is the
      text shown in the reply bubble. */
  method ReadStream(parse: string -> Frame, chunks: seq<string>, broken: bool)
    returns (botMessage: string, outcome: StreamEnd)
    ensures botMessage == StreamState(parse, chunks).text
    ensures outcome == StreamOutcome(parse, chunks, broken)
  {
    botMessage := [];
    var c := 0;
    while c < |chunks|
      invariant c <= |chunks|
      invariant StreamState(parse, chunks[..c]) == Reader(botMessage, false)
    {
      var lines := SplitOn(chunks[c], LineBreak);
      ghost var before := StreamState(parse, chunks[..c]);
      StreamStateStep(parse, chunks, c);
      var j := 0;
      while j < |lines|
        invariant j <= |lines|
        invariant LinesFold(parse, before, lines[..j]) == Reader(botMessage, false)
      {
        var line := lines[j];
        LinesFoldStep(parse, before, lines, j);
        if StartsWith(line, DataPrefix) {
          match parse(line[|DataPrefix|..])
          case Malformed =>
          case Payload(error, content, done) =>
            if error == [] {
              if content != [] {
                botMessage := botMessage + content;
              }
              if done {
                LinesFoldRest(parse, before, lines, j + 1);
                StreamStateRest(parse, chunks, c + 1);
                outcome := Committed(botMessage);
                return;
              }
            }
        }
        j := j + 1;
      }
      assert lines[..j] == lines;
      c := c + 1;
    }
    assert chunks[..c] == chunks;
    outcome := if broken then ReadFailed else EndedWithoutDone;
  }

  // ---------------------------------------------------------------------
  // The reference: which frames count, and what they add up to.

  /** Every line the loop looks at, chunk after chunk. */
  function AllLines(chunks: seq<string>): seq<string>
  {
    if chunks == [] then [] else AllLines(chunks[..|chunks| - 1]) + SplitOn(chunks[|chunks| - 1], LineBreak)
  }

  /** A frame the loop acts on: its content and its `done`. */
  datatype Piece = Piece(content: string, done: bool)

  /** A data line whose payload parses and carries no error. */
  predicate IsAccepted(parse: string -> Frame, line: string)
  {
    StartsWith(line, DataPrefix) && parse(line[|DataPrefix|..]).Payload? && parse(line[|DataPrefix|..]).error == []
  }

  /** The accepted frames among `lines`, in order. */
  function Pieces(parse: string -> Frame, lines: seq<string>): seq<Piece>
  {
    if lines == [] then []
    else
      var last := lines[|lines| - 1];
      Pieces(parse, lines[..|lines| - 1])
        + if IsAccepted(parse, last)
          then [Piece(parse(last[|DataPrefix|..]).content, parse(last[|DataPrefix|..]).done)]
          else []
  }

  /** The frames up to and including the first with `done`. */
  function UpToDone(ps: seq<Piece>): seq<Piece>
  {
    if ps == [] then []
    else if ps[0].done then [ps[0]]
    else [ps[0]] + UpToDone(ps[1..])
  }

  function Contents(ps: seq<Piece>): string
  {
    if ps == [] then [] else ps[0].content + Contents(ps[1..])
  }

  predicate HasDone(ps: seq<Piece>)
  {
    exists i :: 0 <= i < |ps| && ps[i].done
  }

  function PieceStep(r: Reader, p: Piece): Reader
  {
    if r.done then r else Reader(r.text + p.content, p.done)
  }

  function PiecesFold(r: Reader, ps: seq<Piece>): Reader
  {
    if ps == [] then r else PieceStep(PiecesFold(r, ps[..|ps| - 1]), ps[|ps| - 1])
  }

  lemma PiecesFoldSnoc(r: Reader, ps: seq<Piece>, p: Piece)
    ensures PiecesFold(r, ps + [p]) == PieceStep(PiecesFold(r, ps), p)
  {
    assert (ps + [p])[..|ps|] == ps;
  }

  /** A line that is not an accepted frame leaves the state as it is; an
      accepted one acts as its piece. */
  lemma {:induction false} LinesAsPieces(parse: string -> Frame, r: Reader, lines: seq<string>)
    ensures LinesFold(parse, r, lines) == PiecesFold(r, Pieces(parse, lines))
  {
    if lines != [] {
      var init, last := lines[..|lines| - 1], lines[|lines| - 1];
      LinesAsPieces(parse, r, init);
      var s := LinesFold(parse, r, init);
      if IsAccepted(parse, last) {
        var f := parse(last[|DataPrefix|..]);
        PiecesFoldSnoc(r, Pieces(parse, init), Piece(f.content, f.done));
        assert s.text + [] == s.text;
      } else {
        assert Pieces(parse, init) + [] == Pieces(parse, init);
      }
    }
  }

  lemma {:induction false} ContentsSnoc(ps: seq<Piece>, p: Piece)
    ensures Contents(ps + [p]) == Contents(ps) + p.content
  {
    if ps == [] {
      assert [] + [p] == [p];
      assert p.content + [] == p.content;
    } else {
      assert (ps + [p])[1..] == ps[1..] + [p];
      ContentsSnoc(ps[1..], p);
    }
  }

  lemma {:induction false} UpToDoneSnoc(ps: seq<Piece>, p: Piece)
    ensures HasDone(ps) ==> UpToDone(ps + [p]) == UpToDone(ps)
    ensures !HasDone(ps) ==> UpToDone(ps) == ps && UpToDone(ps + [p]) == ps + [p]
  {
    if ps == [] {
      assert [] + [p] == [p];
    } else {
      assert (ps + [p])[0] == ps[0] && (ps + [p])[1..] == ps[1..] + [p];
      UpToDoneSnoc(ps[1..], p);
      if !ps[0].done {
        assert HasDone(ps) <==> HasDone(ps[1..]) by {
          if HasDone(ps) {
            var i :| 0 <= i < |ps| && ps[i].done;
            assert ps[1..][i - 1] == ps[i];
          }
          if HasDone(ps[1..]) {
            var i :| 0 <= i < |ps[1..]| && ps[1..][i].done;
            assert ps[i + 1] == ps[1..][i];
          }
        }
      } else {
        assert HasDone(ps) by {
          assert ps[0].done;
        }
      }
    }
  }

  /** The fold over accepted frames is the concatenation of their contents
      through the first `done`, committed exactly when some frame has `done`. */
  lemma {:induction false} PiecesReference(ps: seq<Piece>)
    ensures PiecesFold(Start, ps) == Reader(Contents(UpToDone(ps)), HasDone(ps))
  {
    if ps != [] {
      var init, p := ps[..|ps| - 1], ps[|ps| - 1];
      assert ps == init + [p];
      PiecesReference(init);
      UpToDoneSnoc(init, p);
      if HasDone(init) {
        var i :| 0 <= i < |init| && init[i].done;
        assert ps[i] == init[i];
      } else {
        ContentsSnoc(init, p);
        assert HasDone(ps) <==> p.done by {
          if HasDone(ps) {
            var i :| 0 <= i < |ps| && ps[i].done;
            if i < |init| {
              assert init[i] == ps[i];
            }
          }
        }
      }
    }
  }

  lemma {:induction false} AllLinesFold(parse: string -> Frame, chunks: seq<string>)
    ensures StreamState(parse, chunks) == LinesFold(parse, Start, AllLines(chunks))
  {
    if chunks != [] {
      var init := chunks[..|chunks| - 1];
      AllLinesFold(parse, init);
      LinesFoldAppend(parse, Start, AllLines(init), SplitOn(chunks[|chunks| - 1], LineBreak));
    } else {
      assert AllLines(chunks) == [];
    }
  }

  /** What the loop commits, stated without the loop: the reply is the
      in-order concatenation of the contents of the accepted frames up to
      the first `done`, and it is committed exactly when one of them has
      `done`. */
  lemma StreamReference(parse: string -> Frame, chunks: seq<string>)
    ensures var ps := Pieces(parse, AllLines(chunks));
            StreamState(parse, chunks) == Reader(Contents(UpToDone(ps)), HasDone(ps))
  {
    AllLinesFold(parse, chunks);
    LinesAsPieces(parse, Start, AllLines(chunks));
    PiecesReference(Pieces(parse, AllLines(chunks)));
  }

  /** A line without a line break is a chunk's only line. */
  lemma SingleLine(chunk: string)
    requires forall i :: 0 <= i < |chunk| ==> chunk[i] != '\n'
    ensures SplitOn(chunk, LineBreak) == [chunk]
  {
    forall k | 0 <= k && k + 1 <= |chunk| ensures !OccursAt(chunk, LineBreak, k) {
      assert chunk[k + 0] != LineBreak[0];
    }
    SplitNoSep(chunk, LineBreak);
  }

  lemma WholeFrameCommits(parse: string -> Frame)
    requires parse("X") == Payload([], "X", true)
    ensures StreamState(parse, ["data: X"]) == Reader("X", true)
  {
    SingleLine("data: X");
    assert ["data: X"][..0] == [];
    assert "data: X"[..|DataPrefix|] == DataPrefix;
    assert "data: X"[|DataPrefix|..] == "X";
    assert [] + "X" == "X";
  }

  lemma CutFrameLost(parse: string -> Frame)
    ensures StreamState(parse, ["dat", "a: X"]) == Reader([], false)
  {
    SingleLine("dat");
    SingleLine("a: X");
    assert ["dat", "a: X"][..1] == ["dat"] && ["dat"][..0] == [];
    assert !StartsWith("dat", DataPrefix);
    assert !StartsWith("a: X", DataPrefix) by {
      assert "a: X"[0] != DataPrefix[0];
    }
  }

  /** Lines are not carried across chunk boundaries: a frame cut in two by
      a chunk boundary is lost, whereas the same text in one chunk commits
      the reply. */
  lemma NoCarryOver(parse: string -> Frame)
    requires parse("X") == Payload([], "X", true)
    ensures StreamState(parse, ["data: X"]) == Reader("X", true)
    ensures StreamState(parse, ["dat", "a: X"]) == Reader([], false)
  {
    WholeFrameCommits(parse);
    CutFrameLost(parse);
  }
}

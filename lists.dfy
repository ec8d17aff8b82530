/** `formatLists` of the browser client's renderer: a line-by-line pass
    with three flags (ordered list open, unordered list open, inside a
    code block) that groups numbered and bulleted lines into lists.

    The pass is specified on tokens: each input line produces a few
    tokens (list tags and one content token), and the output text is the
    tokens rendered and joined with newlines. */
module ListFormat {
  import opened Text

  /** The opening line of the block `formatCodeBlocks` emits. */
  const CodeBlockMarker: string := "<div class=\"code-block\">"
  const DivClose: string := "</div>"
  const OlOpenTag: string := "<ol class=\"formatted-list ordered\">"
  const UlOpenTag: string := "<ul class=\"formatted-list unordered\">"

  datatype Token =
    | OpenOl | CloseOl | OpenUl | CloseUl
    | Item(ordered: bool, text: string)  // a list line, rendered as one <li>
    | Raw(line: string)                  // a line passed through while the code-block flag is set
    | Plain(line: string)                // any other line

  function Render(t: Token): string
  {
    match t
    case OpenOl => OlOpenTag
    case CloseOl => "</ol>"
    case OpenUl => UlOpenTag
    case CloseUl => "</ul>"
    case Item(_, text) => "<li>" + text + "</li>"
    case Raw(line) => line
    case Plain(line) => line
  }

  function RenderAll(ts: seq<Token>): (r: seq<string>)
    ensures |r| == |ts|
  {
    seq(|ts|, i requires 0 <= i < |ts| => Render(ts[i]))
  }

  lemma RenderAllSnoc(ts: seq<Token>, t: Token)
    ensures RenderAll(ts + [t]) == RenderAll(ts) + [Render(t)]
  {
  }

  /** What a regular-expression `.+` takes greedily: everything up to the first line terminator. */
  function UntilTerminator(s: string): (r: string)
    ensures |r| <= |s|
    ensures forall i {:trigger r[i]} :: 0 <= i < |r| ==> r[i] == s[i]
    ensures forall i :: 0 <= i < |r| ==> !IsLineTerminator(r[i])
    ensures |r| < |s| ==> IsLineTerminator(s[|r|])
  {
    if s == [] || IsLineTerminator(s[0]) then [] else [s[0]] + UntilTerminator(s[1..])
  }

  predicate NoTrailingSpace(s: string)
  {
    s == [] || !IsJsSpace(s[|s| - 1])
  }

  /** The `\s+(.+)` tail of both list patterns, applied after the marker.
      On a string without trailing whitespace the greedy match is the only
      one, so no backtracking case arises. */
  function ItemAfterMarker(rest: string): (r: Option<string>)
    requires NoTrailingSpace(rest)
    ensures r.Some? ==> r.value != [] && |r.value| < |rest|
    ensures r.Some? <==> rest != [] && IsJsSpace(rest[0])
  {
    if rest == [] || !IsJsSpace(rest[0]) then None
    else
      var text := TrimStartBy(rest, JsSpace);
      TrimStartDropped(rest, JsSpace);
      assert text != [];
      Some(UntilTerminator(text))
  }

  /** `line.match(/^(\d+)\.\s+(.+)/)`, its second group. The renderer only
      applies it to trimmed lines. */
  function NumberedItem(line: string): (r: Option<string>)
    requires NoTrailingSpace(line)
    ensures r.Some? ==> line != [] && IsDigit(line[0]) && r.value != []
  {
    var d := LeadingCount(line, Digit);
    if d == 0 || d == |line| || line[d] != '.' then None
    else ItemAfterMarker(line[d + 1..])
  }

  predicate IsBulletMarker(c: char)
  {
    c == '\U{2022}' || c == '*' || c == '-'
  }

  /** `line.match(/^[•\*\-]\s+(.+)/)`, its group. */
  function BulletItem(line: string): (r: Option<string>)
    requires NoTrailingSpace(line)
    ensures r.Some? ==> line != [] && IsBulletMarker(line[0]) && r.value != []
  {
    if line == [] || !IsBulletMarker(line[0]) then None else ItemAfterMarker(line[1..])
  }

  lemma TrimNoTrailingSpace(s: string)
    ensures NoTrailingSpace(Trim(s))
  {
  }

  // ---------------------------------------------------------------------
  // Per line: the code-block flag and the line's content token.

  /** The code-block flag after a trimmed line: set by the block's opening
      marker, cleared by the first line that contains `</div>`. */
  function NextCode(inCode: bool, line: string): bool
  {
    if Contains(line, CodeBlockMarker) then true
    else if Contains(line, DivClose) && inCode then false
    else inCode
  }

  /** The code-block flag after `lines`. It never depends on the list flags. */
  function CodeFlag(lines: seq<string>): bool
  {
    if lines == [] then false else NextCode(CodeFlag(lines[..|lines| - 1]), Trim(lines[|lines| - 1]))
  }

  predicate IsContent(t: Token)
  {
    t.Item? || t.Raw? || t.Plain?
  }

  /** The content token of one trimmed line: passed through inside a code
      block, otherwise a numbered item before a bullet item before a plain line. */
  function Classify(inCode: bool, line: string): (t: Token)
    requires NoTrailingSpace(line)
    ensures IsContent(t)
    ensures t.Raw? <==> inCode
  {
    if inCode then Raw(line)
    else match NumberedItem(line)
      case Some(text) => Item(true, text)
      case None =>
        match BulletItem(line)
        case Some(text) => Item(false, text)
        case None => Plain(line)
  }

  /** The content tokens of `lines`, one per line, in order. */
  function LineTokens(lines: seq<string>): (r: seq<Token>)
    ensures |r| == |lines|
    ensures forall i :: 0 <= i < |r| ==> IsContent(r[i])
  {
    if lines == [] then []
    else
      TrimNoTrailingSpace(lines[|lines| - 1]);
      LineTokens(lines[..|lines| - 1]) + [Classify(CodeFlag(lines), Trim(lines[|lines| - 1]))]
  }

  lemma LineTokensSnoc(lines: seq<string>, i: nat)
    requires i < |lines|
    ensures NoTrailingSpace(Trim(lines[i]))
    ensures CodeFlag(lines[..i + 1]) == NextCode(CodeFlag(lines[..i]), Trim(lines[i]))
    ensures LineTokens(lines[..i + 1]) == LineTokens(lines[..i]) + [Classify(CodeFlag(lines[..i + 1]), Trim(lines[i]))]
  {
    TrimNoTrailingSpace(lines[i]);
    assert lines[..i + 1][..i] == lines[..i];
  }

  /** The tokens of a prefix of the lines are the prefix of the tokens. */
  lemma {:induction false} LineTokensTake(lines: seq<string>, k: nat)
    requires k <= |lines|
    ensures LineTokens(lines[..k]) == LineTokens(lines)[..k]
    decreases |lines| - k
  {
    if k == |lines| {
      assert lines[..k] == lines;
    } else {
      LineTokensTake(lines, k + 1);
      LineTokensSnoc(lines, k);
      var all := LineTokens(lines);
      var longer := LineTokens(lines[..k + 1]);
      assert longer == all[..k + 1];
      assert LineTokens(lines[..k]) == longer[..k];
      assert all[..k + 1][..k] == all[..k];
    }
  }


  /** The content token of line `i` is that line trimmed, classified under
      the code-block flag after it. */
  lemma {:induction false} LineTokensAt(lines: seq<string>, i: nat)
    requires i < |lines|
    ensures NoTrailingSpace(Trim(lines[i]))
    ensures LineTokens(lines)[i] == Classify(CodeFlag(lines[..i + 1]), Trim(lines[i]))
  {
    TrimNoTrailingSpace(lines[i]);
    var c := Classify(CodeFlag(lines[..i + 1]), Trim(lines[i]));
    LineTokensTake(lines, i + 1);
    LineTokensSnoc(lines, i);
    var ts := LineTokens(lines);
    assert ts[..i + 1] == LineTokens(lines[..i]) + [c];
    assert ts[i] == ts[..i + 1][i];
  }

  // ---------------------------------------------------------------------
  // The list state machine over content tokens.

  datatype ListState = ListState(inOl: bool, inUl: bool, toks: seq<Token>)

  /** The closing tags for the lists still open. */
  function Closes(inOl: bool, inUl: bool): (r: seq<Token>)
    ensures |r| <= 2
  {
    (if inOl then [CloseOl] else []) + (if inUl then [CloseUl] else [])
  }

  /** The tags the loop pushes before the content token `c`: the list of
      the other kind closed and the item's own list opened, or every open
      list closed before a plain line. */
  function Tags(inOl: bool, inUl: bool, c: Token): (r: seq<Token>)
    ensures |r| <= 2 && forall i :: 0 <= i < |r| ==> !IsContent(r[i])
  {
    match c
    case Raw(_) => []
    case Item(true, _) => if inOl then [] else if inUl then [CloseUl, OpenOl] else [OpenOl]
    case Item(false, _) => if inUl then [] else if inOl then [CloseOl, OpenUl] else [OpenUl]
    case _ => Closes(inOl, inUl)
  }

  /** What the loop does with one content token `c`, given the list flags:
      the new flags and the tokens it pushes. */
  function ListStep(inOl: bool, inUl: bool, c: Token): ListState
  {
    var toks := Tags(inOl, inUl, c) + [c];
    match c
    case Raw(_) => ListState(inOl, inUl, toks)
    case Item(true, _) => ListState(true, inOl && inUl, toks)
    case Item(false, _) => ListState(inUl && inOl, true, toks)
    case _ => ListState(false, false, toks)
  }

  /** The loop run over the content tokens `cs`, before the closing tags. */
  function ListFold(cs: seq<Token>): ListState
  {
    if cs == [] then ListState(false, false, [])
    else
      var before := ListFold(cs[..|cs| - 1]);
      var step := ListStep(before.inOl, before.inUl, cs[|cs| - 1]);
      ListState(step.inOl, step.inUl, before.toks + step.toks)
  }

  lemma ListFoldSnoc(cs: seq<Token>, c: Token)
    ensures ListFold(cs + [c]).toks == ListFold(cs).toks + ListStep(ListFold(cs).inOl, ListFold(cs).inUl, c).toks
    ensures ListFold(cs + [c]).inOl == ListStep(ListFold(cs).inOl, ListFold(cs).inUl, c).inOl
    ensures ListFold(cs + [c]).inUl == ListStep(ListFold(cs).inOl, ListFold(cs).inUl, c).inUl
  {
    assert (cs + [c])[..|cs|] == cs;
  }

  /** All tokens of the pass over `lines`, the closing of a list still open
      at the end included. */
  function ListTokens(lines: seq<string>): seq<Token>
  {
    var f := ListFold(LineTokens(lines));
    f.toks + Closes(f.inOl, f.inUl)
  }

  /** The text `formatLists(content)` returns. */
  function FormattedLists(content: string): string
  {
    Join(RenderAll(ListTokens(SplitOn(content, "\n"))), "\n")
  }

  /** One iteration of the loop, on the specification side: the code flag
      and the list fold after line `i`. */
  lemma FoldLine(lines: seq<string>, i: nat)
    requires i < |lines|
    ensures NoTrailingSpace(Trim(lines[i]))
    ensures CodeFlag(lines[..i + 1]) == NextCode(CodeFlag(lines[..i]), Trim(lines[i]))
    ensures var f := ListFold(LineTokens(lines[..i]));
            var step := ListStep(f.inOl, f.inUl, Classify(CodeFlag(lines[..i + 1]), Trim(lines[i])));
            ListFold(LineTokens(lines[..i + 1])) == ListState(step.inOl, step.inUl, f.toks + step.toks)
  {
    LineTokensSnoc(lines, i);
    ListFoldSnoc(LineTokens(lines[..i]), Classify(CodeFlag(lines[..i + 1]), Trim(lines[i])));
  }

  lemma RenderAllAppend(a: seq<Token>, b: seq<Token>)
    ensures RenderAll(a + b) == RenderAll(a) + RenderAll(b)
  {
  }

  /** A list line of the loop of `formatLists`: closes a list of the other
      kind, opens a list of the item's kind unless one is open, then pushes
      the item. */
  method PushItem(out: seq<string>, inOrderedList: bool, inUnorderedList: bool, ordered: bool, text: string)
    returns (out': seq<string>, inOl: bool, inUl: bool)
    ensures inOl == ListStep(inOrderedList, inUnorderedList, Item(ordered, text)).inOl
    ensures inUl == ListStep(inOrderedList, inUnorderedList, Item(ordered, text)).inUl
    ensures out' == out + RenderAll(ListStep(inOrderedList, inUnorderedList, Item(ordered, text)).toks)
  {
    out', inOl, inUl := out, inOrderedList, inUnorderedList;
    if ordered {
      if !inOl {
        if inUl {
          out' := out' + ["</ul>"];
          inUl := false;
        }
        out' := out' + [OlOpenTag];
        inOl := true;
      }
    } else {
      if !inUl {
        if inOl {
          out' := out' + ["</ol>"];
          inOl := false;
        }
        out' := out' + [UlOpenTag];
        inUl := true;
      }
    }
    out' := out' + ["<li>" + text + "</li>"];
    RenderAllSnoc(Tags(inOrderedList, inUnorderedList, Item(ordered, text)), Item(ordered, text));
  }

  /** Closes the lists still open, the ordered one first. */
  method CloseLists(out: seq<string>, inOrderedList: bool, inUnorderedList: bool) returns (out': seq<string>)
    ensures out' == out + RenderAll(Closes(inOrderedList, inUnorderedList))
  {
    out' := out;
    if inOrderedList {
      out' := out' + ["</ol>"];
    }
    if inUnorderedList {
      out' := out' + ["</ul>"];
    }
  }

  /** Any other line outside a code block: closes every open list, then
      pushes the line. */
  method PushPlain(out: seq<string>, inOrderedList: bool, inUnorderedList: bool, line: string)
    returns (out': seq<string>, inOl: bool, inUl: bool)
    ensures !inOl && !inUl
    ensures out' == out + RenderAll(ListStep(inOrderedList, inUnorderedList, Plain(line)).toks)
  {
    out' := CloseLists(out, inOrderedList, inUnorderedList);
    inOl, inUl := false, false;
    out' := out' + [line];
    RenderAllSnoc(Closes(inOrderedList, inUnorderedList), Plain(line));
  }

  /** The body of the loop of `formatLists` for one line: updates the code
      flag, then pushes the line as is inside a code block, or as a list item
      (a numbered line before a bulleted one), or as a plain line. */
  method FormatLine(raw: string, out: seq<string>, inOrderedList: bool, inUnorderedList: bool, inCodeBlock: bool)
    returns (out': seq<string>, inOl: bool, inUl: bool, inCode: bool)
    ensures NoTrailingSpace(Trim(raw))
    ensures inCode == NextCode(inCodeBlock, Trim(raw))
    ensures inOl == ListStep(inOrderedList, inUnorderedList, Classify(inCode, Trim(raw))).inOl
    ensures inUl == ListStep(inOrderedList, inUnorderedList, Classify(inCode, Trim(raw))).inUl
    ensures out' == out + RenderAll(ListStep(inOrderedList, inUnorderedList, Classify(inCode, Trim(raw))).toks)
  {
    inCode := inCodeBlock;
    var line := Trim(raw);
    TrimNoTrailingSpace(raw);

    if Contains(line, CodeBlockMarker) {
      inCode := true;
    } else if Contains(line, DivClose) && inCode {
      inCode := false;
    }

    if inCode {
      out', inOl, inUl := out + [line], inOrderedList, inUnorderedList;
      RenderAllSnoc([], Raw(line));
      return;
    }

    var numberedMatch := NumberedItem(line);
    if numberedMatch.Some? {
      out', inOl, inUl := PushItem(out, inOrderedList, inUnorderedList, true, numberedMatch.value);
      return;
    }

    var bulletMatch := BulletItem(line);
    if bulletMatch.Some? {
      out', inOl, inUl := PushItem(out, inOrderedList, inUnorderedList, false, bulletMatch.value);
      return;
    }

    out', inOl, inUl := PushPlain(out, inOrderedList, inUnorderedList, line);
  }

  /** `formatLists`: the loop over the lines of `content`, then the closing
      of a list still open. */
  method FormatLists(content: string) returns (r: string)
    ensures r == FormattedLists(content)
  {
    var lines := SplitOn(content, "\n");
    var formattedLines: seq<string> := [];
    var inUnorderedList, inOrderedList, inCodeBlock := false, false, false;
    ghost var toks: seq<Token> := [];
    for i := 0 to |lines|
      invariant inCodeBlock == CodeFlag(lines[..i])
      invariant ListFold(LineTokens(lines[..i])) == ListState(inOrderedList, inUnorderedList, toks)
      invariant formattedLines == RenderAll(toks)
    {
      FoldLine(lines, i);
      ghost var step := ListStep(inOrderedList, inUnorderedList, Classify(CodeFlag(lines[..i + 1]), Trim(lines[i])));
      RenderAllAppend(toks, step.toks);
      formattedLines, inOrderedList, inUnorderedList, inCodeBlock :=
        FormatLine(lines[i], formattedLines, inOrderedList, inUnorderedList, inCodeBlock);
      toks := toks + step.toks;
    }
    assert lines[..|lines|] == lines;
    RenderAllAppend(toks, Closes(inOrderedList, inUnorderedList));
    formattedLines := CloseLists(formattedLines, inOrderedList, inUnorderedList);
    r := Join(formattedLines, "\n");
  }

  // ---------------------------------------------------------------------
  // An independent checker for the list structure of a token sequence.

  /** Where a left-to-right reading of tags stands: no list open, an
      ordered or an unordered list open, or a tag out of place seen. */
  datatype Nest = Closed | InOl | InUl | Broken

  /** A list opens only when none is open and closes only the kind that is
      open; an item sits only in a list of its own kind; a plain line only
      outside every list; a code-block line anywhere. */
  function NestStep(n: Nest, t: Token): Nest
  {
    match t
    case OpenOl => if n == Closed then InOl else Broken
    case CloseOl => if n == InOl then Closed else Broken
    case OpenUl => if n == Closed then InUl else Broken
    case CloseUl => if n == InUl then Closed else Broken
    case Item(ordered, _) => if (ordered && n == InOl) || (!ordered && n == InUl) then n else Broken
    case Plain(_) => if n == Closed then n else Broken
    case Raw(_) => n
  }

  function NestFrom(n: Nest, ts: seq<Token>): Nest
    decreases |ts|
  {
    if ts == [] then n else NestFrom(NestStep(n, ts[0]), ts[1..])
  }

  lemma {:induction false} NestFromAppend(n: Nest, a: seq<Token>, b: seq<Token>)
    ensures NestFrom(n, a + b) == NestFrom(NestFrom(n, a), b)
    decreases |a|
  {
    if a == [] {
      assert a + b == b;
    } else {
      assert (a + b)[0] == a[0] && (a + b)[1..] == a[1..] + b;
      NestFromAppend(NestStep(n, a[0]), a[1..], b);
    }
  }

  function NestOf(inOl: bool, inUl: bool): Nest
  {
    if inOl then InOl else if inUl then InUl else Closed
  }

  lemma NestFromCons(n: Nest, t: Token, ts: seq<Token>)
    ensures NestFrom(n, [t] + ts) == NestFrom(NestStep(n, t), ts)
  {
    assert ([t] + ts)[1..] == ts;
  }

  lemma NestFromOne(n: Nest, t: Token)
    ensures NestFrom(n, [t]) == NestStep(n, t)
  {
    NestFromCons(n, t, []);
  }

  lemma NestFromTwo(n: Nest, t: Token, u: Token)
    ensures NestFrom(n, [t, u]) == NestStep(NestStep(n, t), u)
  {
    assert [t, u] == [t] + [u];
    NestFromCons(n, t, [u]);
    NestFromOne(NestStep(n, t), u);
  }

  lemma NestFromThree(n: Nest, t: Token, u: Token, v: Token)
    ensures NestFrom(n, [t, u, v]) == NestStep(NestStep(NestStep(n, t), u), v)
  {
    assert [t, u, v] == [t] + [u, v];
    NestFromCons(n, t, [u, v]);
    NestFromTwo(NestStep(n, t), u, v);
  }

  /** The tags one step pushes close exactly the lists its flags open, and
      the token after them is well placed. */
  lemma StepNest(inOl: bool, inUl: bool, c: Token)
    requires !(inOl && inUl) && IsContent(c)
    ensures !(ListStep(inOl, inUl, c).inOl && ListStep(inOl, inUl, c).inUl)
    ensures NestFrom(NestOf(inOl, inUl), ListStep(inOl, inUl, c).toks)
            == NestOf(ListStep(inOl, inUl, c).inOl, ListStep(inOl, inUl, c).inUl)
  {
    var n := NestOf(inOl, inUl);
    var toks := ListStep(inOl, inUl, c).toks;
    if |toks| == 1 {
      assert toks == [c];
      NestFromOne(n, c);
    } else if |toks| == 2 {
      assert toks == [toks[0], c];
      NestFromTwo(n, toks[0], c);
    } else {
      assert toks == [toks[0], toks[1], c];
      NestFromThree(n, toks[0], toks[1], c);
    }
  }

  /** The loop never has both lists open, and its tokens so far leave the
      checker exactly in the state its flags describe. */
  lemma {:induction false} FoldNest(cs: seq<Token>)
    requires forall i :: 0 <= i < |cs| ==> IsContent(cs[i])
    ensures !(ListFold(cs).inOl && ListFold(cs).inUl)
    ensures NestFrom(Closed, ListFold(cs).toks) == NestOf(ListFold(cs).inOl, ListFold(cs).inUl)
  {
    if cs != [] {
      var init := cs[..|cs| - 1];
      FoldNest(init);
      var before := ListFold(init);
      var c := cs[|cs| - 1];
      StepNest(before.inOl, before.inUl, c);
      NestFromAppend(Closed, before.toks, ListStep(before.inOl, before.inUl, c).toks);
    }
  }

  lemma ClosesNest(inOl: bool, inUl: bool)
    requires !(inOl && inUl)
    ensures NestFrom(NestOf(inOl, inUl), Closes(inOl, inUl)) == Closed
  {
    if inOl {
      NestFromOne(InOl, CloseOl);
    } else if inUl {
      NestFromOne(InUl, CloseUl);
    }
  }

  /** At most one list is open at a time, a list of the other kind is
      closed before one opens, items sit in a list of their kind, and no
      list is left open at the end. */
  lemma ListsBalanced(lines: seq<string>)
    ensures NestFrom(Closed, ListTokens(lines)) == Closed
  {
    var f := ListFold(LineTokens(lines));
    FoldNest(LineTokens(lines));
    ClosesNest(f.inOl, f.inUl);
    NestFromAppend(Closed, f.toks, Closes(f.inOl, f.inUl));
  }

  // ---------------------------------------------------------------------
  // What each input line contributes.

  /** The tokens that carry text, in order: everything but the list tags. */
  function ContentOf(ts: seq<Token>): seq<Token>
  {
    if ts == [] then []
    else if IsContent(ts[0]) then [ts[0]] + ContentOf(ts[1..])
    else ContentOf(ts[1..])
  }

  lemma {:induction false} ContentAppend(a: seq<Token>, b: seq<Token>)
    ensures ContentOf(a + b) == ContentOf(a) + ContentOf(b)
  {
    if a == [] {
      assert a + b == b;
    } else {
      assert (a + b)[0] == a[0] && (a + b)[1..] == a[1..] + b;
      ContentAppend(a[1..], b);
    }
  }

  lemma ContentOfTags(tags: seq<Token>, c: Token)
    requires |tags| <= 2 && forall i :: 0 <= i < |tags| ==> !IsContent(tags[i])
    requires IsContent(c)
    ensures ContentOf(tags) == [] && ContentOf(tags + [c]) == [c]
  {
    if tags != [] {
      assert !IsContent(tags[0]);
      if |tags| == 2 {
        assert tags[1..] == [tags[1]];
        assert ContentOf([tags[1]]) == ContentOf([tags[1]][1..]);
      }
    }
    ContentAppend(tags, [c]);
    assert ContentOf([c]) == [c] + ContentOf([c][1..]);
  }

  /** One step of the loop pushes its content token after the tags. */
  lemma StepContent(inOl: bool, inUl: bool, c: Token)
    requires IsContent(c)
    ensures ContentOf(ListStep(inOl, inUl, c).toks) == [c]
  {
    ContentOfTags(Tags(inOl, inUl, c), c);
  }

  lemma {:induction false} FoldContent(cs: seq<Token>)
    requires forall i :: 0 <= i < |cs| ==> IsContent(cs[i])
    ensures ContentOf(ListFold(cs).toks) == cs
  {
    if cs != [] {
      var init := cs[..|cs| - 1];
      var c := cs[|cs| - 1];
      FoldContent(init);
      var before := ListFold(init);
      var step := ListStep(before.inOl, before.inUl, c);
      assert ListFold(cs).toks == before.toks + step.toks;
      StepContent(before.inOl, before.inUl, c);
      ContentAppend(before.toks, step.toks);
      assert cs == init + [c];
    }
  }

  /** Apart from the list tags, the pass emits exactly one token per input
      line, in order: the line's content token. */
  lemma ListContent(lines: seq<string>)
    ensures ContentOf(ListTokens(lines)) == LineTokens(lines)
  {
    var f := ListFold(LineTokens(lines));
    FoldContent(LineTokens(lines));
    ContentOfTags(Closes(f.inOl, f.inUl), Plain([]));
    ContentAppend(f.toks, Closes(f.inOl, f.inUl));
  }

  lemma CodeFlagStep(lines: seq<string>, n: nat)
    requires 0 < n <= |lines|
    ensures CodeFlag(lines[..n]) == NextCode(CodeFlag(lines[..n - 1]), Trim(lines[n - 1]))
  {
    assert lines[..n][..n - 1] == lines[..n - 1];
  }

  /** Once a line clears the code-block flag, it stays clear through the
      later lines that leave a clear flag alone. */
  lemma {:induction false} FlagStaysClear(lines: seq<string>, p: nat, n: nat)
    requires p < n <= |lines|
    requires !NextCode(true, Trim(lines[p])) && !NextCode(false, Trim(lines[p]))
    requires forall j :: p < j < n ==> !NextCode(false, Trim(lines[j]))
    ensures !CodeFlag(lines[..n])
  {
    CodeFlagStep(lines, n);
    var last := Trim(lines[n - 1]);
    if n - 1 > p {
      FlagStaysClear(lines, p, n - 1);
      assert !NextCode(false, last);
    } else if CodeFlag(lines[..n - 1]) {
      assert !NextCode(true, last);
    } else {
      assert !NextCode(false, last);
    }
  }

  /** A line that opens no code block and closes no `<div>` leaves a
      clear flag clear. */
  lemma QuietLine(line: string)
    requires !Contains(line, CodeBlockMarker) && !Contains(line, DivClose)
    ensures !NextCode(false, line)
  {
  }

  /** A line that closes a `<div>` without opening a code block clears the
      flag, whatever it was. */
  lemma ClosingLine(line: string)
    requires Contains(line, DivClose) && !Contains(line, CodeBlockMarker)
    ensures !NextCode(true, line) && !NextCode(false, line)
  {
  }

  /** The code-block flag does not protect a code block's body: the block
      emitted by `formatCodeBlocks` closes its header `<div>` (line `p`)
      before the code lines, which clears the flag, so each later code line
      `i` is classified like any other line (a `- x` line of code becomes a
      list item). */
  lemma {:induction false} CodeBodyUnprotected(lines: seq<string>, p: nat, i: nat)
    requires p < i < |lines|
    requires Contains(Trim(lines[p]), DivClose) && !Contains(Trim(lines[p]), CodeBlockMarker)
    requires forall j :: p < j <= i ==> !Contains(Trim(lines[j]), CodeBlockMarker) && !Contains(Trim(lines[j]), DivClose)
    ensures NoTrailingSpace(Trim(lines[i]))
    ensures LineTokens(lines)[i] == Classify(false, Trim(lines[i]))
  {
    assert !CodeFlag(lines[..i + 1]) by {
      ClosingLine(Trim(lines[p]));
      forall j | p < j < i + 1 ensures !NextCode(false, Trim(lines[j])) {
        QuietLine(Trim(lines[j]));
      }
      FlagStaysClear(lines, p, i + 1);
    }
    LineTokensAt(lines, i);
  }
}

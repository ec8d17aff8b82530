/** `formatParagraphs` of the browser client's renderer: the text is cut at
    blank lines (`\n\n`), each chunk is trimmed, dropped when empty, passed
    through when it already looks like markup, and otherwise wrapped in a
    paragraph with its line breaks turned into `<br>`; the results are
    concatenated. */
module Paragraphs {
  import opened Text

  const ParagraphOpen: string := "<p class=\"response-paragraph\">"
  const ParagraphClose: string := "</p>"
  const Blank: string := "\n\n"

  /** `replace(/\n/g, '<br>')`. */
  function BreakLines(s: string): (r: string)
    ensures forall i :: 0 <= i < |r| ==> r[i] != '\n'
  {
    if s == [] then []
    else (if s[0] == '\n' then "<br>" else [s[0]]) + BreakLines(s[1..])
  }

  lemma {:induction false} BreakLinesAppend(a: string, b: string)
    ensures BreakLines(a + b) == BreakLines(a) + BreakLines(b)
  {
    if a == [] {
      assert a + b == b;
    } else {
      assert (a + b)[0] == a[0] && (a + b)[1..] == a[1..] + b;
      BreakLinesAppend(a[1..], b);
    }
  }

  /** A string without line breaks is left as it is. */
  lemma {:induction false} BreakLinesClean(s: string)
    requires forall i :: 0 <= i < |s| ==> s[i] != '\n'
    ensures BreakLines(s) == s
  {
    if s != [] {
      BreakLinesClean(s[1..]);
    }
  }

  /** One line break in front of a break-free prefix. */
  lemma BreakLinesAround(a: string, rest: string)
    requires forall i :: 0 <= i < |a| ==> a[i] != '\n'
    ensures BreakLines(a + "\n" + rest) == a + "<br>" + BreakLines(rest)
  {
    BreakLinesClean(a);
    BreakLinesAppend(a + "\n", rest);
    BreakLinesAppend(a, "\n");
  }

  /** The regular-expression replacement agrees with the `split('\n').join('<br>')`
      idiom: every line break, and nothing else, becomes `<br>`. */
  lemma {:induction false} BreakLinesSplit(s: string)
    ensures BreakLines(s) == Join(SplitOn(s, "\n"), "<br>")
    decreases |s|
  {
    match FindFrom(s, "\n", 0)
    case None =>
      forall i | 0 <= i < |s| ensures s[i] != '\n' {
        assert !OccursAt(s, "\n", i);
      }
      BreakLinesClean(s);
    case Some(k) =>
      var a, rest := s[..k], s[k + 1..];
      assert SplitOn(s, "\n") == [a] + SplitOn(rest, "\n");
      BreakLinesSplit(rest);
      JoinCons(a, SplitOn(rest, "\n"), "<br>");
      OccursSplit(s, "\n", k);
      forall i | 0 <= i < k ensures a[i] != '\n' {
        assert !OccursAt(s, "\n", i);
      }
      BreakLinesAround(a, rest);
  }

  /** The test that keeps a chunk out of a paragraph: it starts with `<` or
      contains `<li>` or `<h`. */
  predicate IsMarkup(p: string)
  {
    StartsWith(p, "<") || Contains(p, "<li>") || Contains(p, "<h")
  }

  /** What one chunk of the split becomes. */
  function ParagraphOf(chunk: string): string
  {
    var p := Trim(chunk);
    if p == [] then []
    else if IsMarkup(p) then p
    else ParagraphOpen + BreakLines(p) + ParagraphClose
  }

  /** A chunk vanishes exactly when it is all whitespace; a markup chunk is
      only trimmed; any other chunk becomes one paragraph holding its lines
      joined by `<br>`. */
  lemma ParagraphCases(chunk: string)
    ensures ParagraphOf(chunk) == [] <==> forall i :: 0 <= i < |chunk| ==> IsJsSpace(chunk[i])
    ensures Trim(chunk) != [] && IsMarkup(Trim(chunk)) ==> ParagraphOf(chunk) == Trim(chunk)
    ensures Trim(chunk) != [] && !IsMarkup(Trim(chunk)) ==>
              ParagraphOf(chunk) == ParagraphOpen + Join(SplitOn(Trim(chunk), "\n"), "<br>") + ParagraphClose
  {
    TrimEmpty(chunk);
    BreakLinesSplit(Trim(chunk));
  }

  /** `chunks.map(f)`. */
  function MapAll(f: string -> string, chunks: seq<string>): (r: seq<string>)
    ensures |r| == |chunks|
  {
    if chunks == [] then [] else [f(chunks[0])] + MapAll(f, chunks[1..])
  }

  /** Each chunk is mapped in place. */
  lemma {:induction false} MapAllAt(f: string -> string, chunks: seq<string>, i: nat)
    requires i < |chunks|
    ensures MapAll(f, chunks)[i] == f(chunks[i])
  {
    if i > 0 {
      MapAllAt(f, chunks[1..], i - 1);
      assert chunks[1..][i - 1] == chunks[i];
    }
  }

  lemma MapAllCons(f: string -> string, c: string, chunks: seq<string>)
    ensures MapAll(f, [c] + chunks) == [f(c)] + MapAll(f, chunks)
  {
    assert ([c] + chunks)[1..] == chunks;
  }

  /** `formatParagraphs(content)`. */
  function FormatParagraphs(content: string): string
  {
    Join(MapAll(ParagraphOf, SplitOn(content, Blank)), "")
  }

  /** Text without a blank line is a single chunk. */
  lemma FormatParagraphsSingle(content: string)
    requires !Contains(content, Blank)
    ensures FormatParagraphs(content) == ParagraphOf(content)
  {
    SplitNoSep(content, Blank);
  }

  /** The chunks are handled one after the other and their results
      concatenated: a first chunk `a`, in which no blank line starts, is
      formatted on its own. */
  lemma FormatParagraphsCons(a: string, b: string)
    requires forall k :: 0 <= k < |a| ==> !OccursAt(a + Blank + b, Blank, k)
    ensures FormatParagraphs(a + Blank + b) == ParagraphOf(a) + FormatParagraphs(b)
  {
    SplitCons(a, b, Blank);
    var rest := MapAll(ParagraphOf, SplitOn(b, Blank));
    MapAllCons(ParagraphOf, a, SplitOn(b, Blank));
    JoinCons(ParagraphOf(a), rest, "");
    assert ParagraphOf(a) + "" == ParagraphOf(a);
  }

  // ---------------------------------------------------------------------
  // The output holds no blank line.

  /** No blank line inside, and no line break at either end. */
  predicate Tidy(s: string)
  {
    !Contains(s, Blank) && (s == [] || (s[0] != '\n' && s[|s| - 1] != '\n'))
  }

  lemma TidyAppend(a: string, b: string)
    requires Tidy(a) && Tidy(b)
    ensures Tidy(a + b)
  {
    var s := a + b;
    forall k | 0 <= k && k + 2 <= |s| ensures !OccursAt(s, Blank, k) {
      if k + 2 <= |a| {
        assert !OccursAt(a, Blank, k);
        assert a[k] == s[k] && a[k + 1] == s[k + 1];
      } else if k >= |a| {
        assert !OccursAt(b, Blank, k - |a|);
        assert b[k - |a|] == s[k] && b[k - |a| + 1] == s[k + 1];
      } else {
        assert s[k + 0] == a[|a| - 1] && Blank[0] == '\n';
      }
    }
  }

  lemma {:induction false} JoinTidy(parts: seq<string>)
    requires forall i :: 0 <= i < |parts| ==> Tidy(parts[i])
    ensures Tidy(Join(parts, ""))
  {
    if |parts| > 1 {
      JoinTidy(parts[1..]);
      assert parts[0] + "" == parts[0];
      TidyAppend(parts[0], Join(parts[1..], ""));
    } else if parts == [] {
      assert !OccursAt([], Blank, 0);
    }
  }

  /** A string with no line break at all is tidy. */
  lemma NoBreakTidy(s: string)
    requires forall i :: 0 <= i < |s| ==> s[i] != '\n'
    ensures Tidy(s)
  {
    forall k | 0 <= k && k + 2 <= |s| ensures !OccursAt(s, Blank, k) {
      assert s[k + 0] != Blank[0];
    }
  }

  /** Trimming cannot create a blank line. */
  lemma TrimTidy(chunk: string)
    requires !Contains(chunk, Blank)
    ensures !Contains(Trim(chunk), Blank)
  {
    if Contains(Trim(chunk), Blank) {
      TrimContains(chunk, Blank);
    }
  }

  /** A wrapped paragraph holds no line break at all. */
  lemma WrappedTidy(p: string)
    ensures Tidy(ParagraphOpen + BreakLines(p) + ParagraphClose)
  {
    var b := BreakLines(p);
    var r := ParagraphOpen + b + ParagraphClose;
    forall i | 0 <= i < |r| ensures r[i] != '\n' {
      if i < |ParagraphOpen| {
        assert r[i] == ParagraphOpen[i];
      } else if i < |ParagraphOpen| + |b| {
        assert r[i] == b[i - |ParagraphOpen|];
      } else {
        assert r[i] == ParagraphClose[i - |ParagraphOpen| - |b|];
      }
    }
    NoBreakTidy(r);
  }

  lemma ParagraphTidy(chunk: string)
    requires !Contains(chunk, Blank)
    ensures Tidy(ParagraphOf(chunk))
  {
    var p := Trim(chunk);
    if p == [] {
      assert !OccursAt(p, Blank, 0);
    } else if IsMarkup(p) {
      TrimTidy(chunk);
    } else {
      WrappedTidy(p);
    }
  }

  /** `formatParagraphs` never leaves a blank line in its output, and its
      output neither starts nor ends with a line break. */
  lemma FormatParagraphsTidy(content: string)
    ensures Tidy(FormatParagraphs(content))
  {
    var chunks := SplitOn(content, Blank);
    SplitPartsFree(content, Blank);
    var ps := MapAll(ParagraphOf, chunks);
    forall i | 0 <= i < |ps| ensures Tidy(ps[i]) {
      MapAllAt(ParagraphOf, chunks, i);
      ParagraphTidy(chunks[i]);
    }
    JoinTidy(ps);
  }
}

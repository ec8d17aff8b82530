/** `formatBotMessage` of the browser client: the ordered pipeline that
    turns a reply's markdown-like text into markup. The regular-expression
    stages (code blocks, headings, bold, links, inline code) are parameters
    of the model; the list and paragraph passes are the ones modelled in
    `ListFormat` and `Paragraphs`. */
module Renderer {
  import opened Text
  import opened ListFormat
  import opened Paragraphs

  /** The stages of the pipeline that rewrite text by regular expression. */
  datatype Stages = Stages(
    codeBlocks: string -> string,
    headings: string -> string,
    bold: string -> string,
    links: string -> string,
    inlineCode: string -> string)

  /** Text on which a stage finds nothing to rewrite. */
  predicate Fixes(f: string -> string, s: string)
  {
    f(s) == s
  }

  /** `formatBotMessage(content)`: nothing for an empty reply; otherwise the
      trimmed text passes through code blocks, headings, bold, lists, links,
      inline code and paragraphs, in that order. Whatever the regular
      expressions do, the result holds no blank line and neither starts nor
      ends with a line break. */
  function FormatBotMessage(st: Stages, content: string): (r: string)
    ensures content == [] ==> r == []
    ensures Tidy(r)
  {
    if content == [] then
      assert !OccursAt([], Blank, 0);
      []
    else
      var marked := st.bold(st.headings(st.codeBlocks(Trim(content))));
      var inline := st.inlineCode(st.links(FormattedLists(marked)));
      FormatParagraphsTidy(inline);
      FormatParagraphs(inline)
  }

  /** On a reply in which no regular-expression stage finds anything to
      rewrite, the reply is trimmed, passed through the list pass and then
      the paragraph pass. */
  lemma PlainPipeline(st: Stages, content: string)
    requires content != []
    requires Fixes(st.codeBlocks, Trim(content)) && Fixes(st.headings, Trim(content)) && Fixes(st.bold, Trim(content))
    requires Fixes(st.links, FormattedLists(Trim(content))) && Fixes(st.inlineCode, FormattedLists(Trim(content)))
    ensures FormatBotMessage(st, content) == FormatParagraphs(FormattedLists(Trim(content)))
  {
  }

  /** The list pass leaves empty text empty. */
  lemma FormattedListsEmpty()
    ensures FormattedLists([]) == []
  {
    var lines := SplitOn([], "\n");
    assert FindFrom([], "\n", 0) == None;
    assert lines == [[]];
    assert lines[..0] == [];
    TrimNoTrailingSpace(lines[0]);
    assert Trim(lines[0]) == [] by {
      TrimEmpty(lines[0]);
    }
    assert CodeFlag(lines) == false;
    assert LineTokens(lines) == [Plain([])];
    assert [Plain([])][..0] == [];
    assert ListTokens(lines) == [Plain([])];
    assert RenderAll([Plain([])]) == [[]];
  }

  /** A reply made only of whitespace renders as nothing, for any stages
      that leave the empty text empty, as every regular-expression
      replacement does. */
  lemma BlankMessage(st: Stages, content: string)
    requires forall i :: 0 <= i < |content| ==> IsJsSpace(content[i])
    requires Fixes(st.codeBlocks, []) && Fixes(st.headings, []) && Fixes(st.bold, [])
    requires Fixes(st.links, []) && Fixes(st.inlineCode, [])
    ensures FormatBotMessage(st, content) == []
  {
    if content != [] {
      TrimEmpty(content);
      FormattedListsEmpty();
      PlainPipeline(st, content);
      FormatParagraphsSingle([]) by {
        assert !OccursAt([], Blank, 0);
      }
      assert ParagraphOf([]) == [] by {
        TrimEmpty([]);
      }
    }
  }
}

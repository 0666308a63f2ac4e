/** What the renderer promises, stated over every tree, every set of options
    and every behaviour of the painting and filling collaborators. */
module RendererProperties {
  import opened Wrappers
  import opened Strings
  import opened Mdast
  import opened Styles
  import opened Externals
  import opened Renderer

  // ---------------------------------------------------------------------------
  // Rendering lists of nodes

  /** Rendering a concatenation of lists renders each list and puts one
      separator at the seam. */
  lemma RenderNodesAppend(a: seq<Node>, b: seq<Node>, sep: string, opt: RenderOptions, host: Host)
    requires |a| > 0 && |b| > 0
    ensures RenderNodes(a + b, sep, opt, host)
            == RenderNodes(a, sep, opt, host) + sep + RenderNodes(b, sep, opt, host)
  {
    var ra, rb, rab := RenderAll(a, opt, host), RenderAll(b, opt, host), RenderAll(a + b, opt, host);
    forall i | 0 <= i < |rab|
      ensures rab[i] == (ra + rb)[i]
    {
      if i < |a| {
        assert (a + b)[i] == a[i];
      } else {
        assert (a + b)[i] == b[i - |a|];
      }
    }
    assert rab == ra + rb;
    JoinAppend(ra, rb, sep);
  }

  /** Lists whose nodes render pairwise alike render alike, whatever the separator. */
  lemma RenderNodesAgree(nodes: seq<Node>, sep: string, opt1: RenderOptions, host1: Host, opt2: RenderOptions, host2: Host)
    requires forall i :: 0 <= i < |nodes| ==> Render(nodes[i], opt1, host1) == Render(nodes[i], opt2, host2)
    ensures RenderNodes(nodes, sep, opt1, host1) == RenderNodes(nodes, sep, opt2, host2)
  {
    assert RenderAll(nodes, opt1, host1) == RenderAll(nodes, opt2, host2);
  }

  // ---------------------------------------------------------------------------
  // The root

  /** An unsupported child of the root renders as nothing between two line
      separators and leaves its siblings' text as it is. */
  lemma RootUnsupportedChildLeavesGap(a: seq<Node>, u: Node, b: seq<Node>, opt: RenderOptions, host: Host)
    requires |a| > 0 && |b| > 0
    requires !IsSupported(u)
    ensures Render(Root(a + [u] + b), opt, host)
            == Render(Root(a), opt, host) + "\n" + "\n" + Render(Root(b), opt, host)
  {
    var sep := "\n";
    var left := RenderNodes(a, sep, opt, host);
    var right := RenderNodes(b, sep, opt, host);
    assert RenderNodes([u], sep, opt, host) == "";
    RenderNodesAppend(a, [u], sep, opt, host);
    assert RenderNodes(a + [u], sep, opt, host) == left + sep;
    RenderNodesAppend(a + [u], b, sep, opt, host);
    assert RenderNodes(a + [u] + b, sep, opt, host) == left + sep + sep + right;
    assert Render(Root(a), opt, host) == left;
    assert Render(Root(b), opt, host) == right;
    assert Render(Root(a + [u] + b), opt, host) == RenderNodes(a + [u] + b, sep, opt, host);
  }

  /** An unsupported first child of the root leaves a leading line feed. */
  lemma RootUnsupportedFirstChild(u: Node, b: seq<Node>, opt: RenderOptions, host: Host)
    requires |b| > 0
    requires !IsSupported(u)
    ensures Render(Root([u] + b), opt, host) == "\n" + Render(Root(b), opt, host)
  {
    RenderNodesAppend([u], b, "\n", opt, host);
  }

  /** An unsupported last child of the root leaves a trailing line feed. */
  lemma RootUnsupportedLastChild(a: seq<Node>, u: Node, opt: RenderOptions, host: Host)
    requires |a| > 0
    requires !IsSupported(u)
    ensures Render(Root(a + [u]), opt, host) == Render(Root(a), opt, host) + "\n"
  {
    RenderNodesAppend(a, [u], "\n", opt, host);
  }

  /** A root of `n` unsupported children renders as `n - 1` line feeds. */
  lemma RootOfUnsupportedIsNewlines(nodes: seq<Node>, opt: RenderOptions, host: Host)
    requires |nodes| > 0
    requires forall i :: 0 <= i < |nodes| ==> !IsSupported(nodes[i])
    ensures Render(Root(nodes), opt, host) == RepeatChar('\n', |nodes| - 1)
  {
    JoinOfEmpties(RenderAll(nodes, opt, host), '\n');
  }

  /** Two blocks under the root are separated by a blank line: the first
      block's own newline followed by the root's separator. */
  lemma RootSeparatesBlocksByBlankLine(x: Node, y: Node, opt: RenderOptions, host: Host)
    requires IsBlock(x)
    ensures var r := Render(Root([x, y]), opt, host);
            var n := |Render(x, opt, host)|;
            && r == Render(x, opt, host) + "\n" + Render(y, opt, host)
            && n > 0 && r[n - 1..n + 1] == "\n\n"
  {
    var parts := RenderAll([x, y], opt, host);
    assert Render(Root([x, y]), opt, host) == Join(parts, "\n");
    assert parts[1..] == [Render(y, opt, host)];
    assert Join(parts, "\n") == parts[0] + "\n" + Join(parts[1..], "\n");
  }

  /** A root whose last child is a block ends in a newline. */
  lemma RootEndsWithNewline(nodes: seq<Node>, opt: RenderOptions, host: Host)
    requires |nodes| > 0 && IsBlock(nodes[|nodes| - 1])
    ensures EndsWithNewline(Render(Root(nodes), opt, host))
  {
    JoinEndsWithLast(RenderAll(nodes, opt, host), "\n");
  }

  // ---------------------------------------------------------------------------
  // One rule per kind of node

  /** `RenderOptions::wrap` fills to the configured width with empty indents;
      neither the terminal's width nor the styles play a part. */
  lemma WrapUsesConfiguredWidth(opt: RenderOptions, s: string, host: Host, styles: RenderStyles, termWidth: nat)
    ensures opt.Wrap(host, s) == host.fill(s, WrapOptions(opt.width, "", ""))
    ensures opt.Wrap(host, s) == opt.(styles := styles).Wrap(host.(termWidth := termWidth), s)
  {
  }

  /** Text is copied as it is, whatever the options and collaborators. */
  lemma TextIsVerbatim(value: string, opt: RenderOptions, host: Host)
    ensures Render(Text(value), opt, host) == value
  {
  }

  /** A hard break is one line feed; every unsupported kind renders to nothing,
      whatever its children. */
  lemma BreakAndUnsupported(kind: string, children: seq<Node>, opt: RenderOptions, host: Host)
    ensures Render(Break, opt, host) == "\n"
    ensures Render(Other(kind, children), opt, host) == ""
  {
  }

  /** A link renders as its painted destination: its label and title are
      never looked at. */
  lemma LinkShowsOnlyUrl(url: string, title1: Option<string>, label1: seq<Node>,
                         title2: Option<string>, label2: seq<Node>, opt: RenderOptions, host: Host)
    ensures Render(Link(url, title1, label1), opt, host) == host.paint(opt.styles.link, url)
    ensures Render(Link(url, title1, label1), opt, host) == Render(Link(url, title2, label2), opt, host)
  {
  }

  /** A heading paints `depth` hashes, a space and its children's text, fills
      that to the configured width and ends the line. */
  lemma HeadingLayout(depth: HeadingDepth, children: seq<Node>, opt: RenderOptions, host: Host)
    ensures var line := HeadingLine(depth, RenderNodes(children, "", opt, host));
            Render(Heading(depth, children), opt, host)
            == host.fill(host.paint(opt.styles.heading, line), WrapOptions(opt.width, "", "")) + "\n"
  {
  }

  /** A paragraph fills its children's text to the configured width and ends the line. */
  lemma ParagraphLayout(children: seq<Node>, opt: RenderOptions, host: Host)
    ensures Render(Paragraph(children), opt, host)
            == host.fill(RenderNodes(children, "", opt, host), WrapOptions(opt.width, "", "")) + "\n"
  {
  }

  /** Emphasis, strong text and inline code are painted in their role's style,
      neither filled nor followed by a newline. */
  lemma InlineStyleLayout(children: seq<Node>, value: string, opt: RenderOptions, host: Host)
    ensures Render(Emphasis(children), opt, host) == host.paint(opt.styles.emphasis, RenderNodes(children, "", opt, host))
    ensures Render(Strong(children), opt, host) == host.paint(opt.styles.strong, RenderNodes(children, "", opt, host))
    ensures Render(InlineCode(value), opt, host) == host.paint(opt.styles.inlineCode, value)
  {
  }

  /** A block quote fills its children's text to the terminal's width with the
      quote bar before the first and every later line, and ends the line. */
  lemma BlockQuoteLayout(children: seq<Node>, opt: RenderOptions, host: Host)
    ensures Render(BlockQuote(children), opt, host)
            == host.fill(RenderNodes(children, "", opt, host), WrapOptions(host.termWidth, QuotePrefix, QuotePrefix)) + "\n"
  {
  }

  /** A code block is a header line, the body filled to the terminal's width
      behind a painted side bar, and a footer line, each ended by a newline. */
  lemma CodeBlockLayout(lang: Option<string>, meta: Option<string>, value: string, opt: RenderOptions, host: Host)
    ensures var border := host.paint(opt.styles.codeBlockBorder, CodeSide);
            var before := host.paint(opt.styles.codeBlockBorder, CodeTop) + " " + host.paint(opt.styles.strong, if lang.Some? then lang.value else "");
            var body := host.fill(value, WrapOptions(host.termWidth, border, border));
            var after := host.paint(opt.styles.codeBlockBorder, CodeBottom);
            Render(Code(lang, meta, value), opt, host) == before + "\n" + body + "\n" + after + "\n"
  {
  }

  /** A code block without a language shows an empty label, and its meta
      string is never looked at. */
  lemma CodeMissingLangIsEmptyLabel(meta1: Option<string>, meta2: Option<string>, value: string, opt: RenderOptions, host: Host)
    ensures Render(Code(None, meta1, value), opt, host) == Render(Code(Some(""), meta2, value), opt, host)
  {
  }

  // ---------------------------------------------------------------------------
  // Which collaborator each kind consults

  /** The kinds filled to the configured width. */
  predicate UsesConfiguredWidth(n: Node) {
    n.Heading? || n.Paragraph?
  }

  /** The kinds filled to the terminal's width. */
  predicate UsesTerminalWidth(n: Node) {
    n.BlockQuote? || n.Code?
  }

  /** The kinds that paint. */
  predicate Paints(n: Node) {
    n.Heading? || n.Emphasis? || n.Strong? || n.Link? || n.InlineCode? || n.Code?
  }

  /** The configured width matters only through headings and paragraphs. */
  lemma {:induction false} ConfiguredWidthOnlyAtHeadingsAndParagraphs(node: Node, opt: RenderOptions, width: nat, host: Host)
    requires Avoids(node, UsesConfiguredWidth)
    ensures Render(node, opt, host) == Render(node, opt.(width := width), host)
  {
    if RendersChildren(node) {
      forall i | 0 <= i < |node.children|
        ensures Render(node.children[i], opt, host) == Render(node.children[i], opt.(width := width), host)
      {
        ConfiguredWidthOnlyAtHeadingsAndParagraphs(node.children[i], opt, width, host);
      }
      RenderNodesAgree(node.children, "", opt, host, opt.(width := width), host);
      RenderNodesAgree(node.children, "\n", opt, host, opt.(width := width), host);
    }
  }

  /** The terminal's width matters only through block quotes and code blocks. */
  lemma {:induction false} TerminalWidthOnlyAtQuotesAndCode(node: Node, opt: RenderOptions, host: Host, width: nat)
    requires Avoids(node, UsesTerminalWidth)
    ensures Render(node, opt, host) == Render(node, opt, host.(termWidth := width))
  {
    if RendersChildren(node) {
      forall i | 0 <= i < |node.children|
        ensures Render(node.children[i], opt, host) == Render(node.children[i], opt, host.(termWidth := width))
      {
        TerminalWidthOnlyAtQuotesAndCode(node.children[i], opt, host, width);
      }
      RenderNodesAgree(node.children, "", opt, host, opt, host.(termWidth := width));
      RenderNodesAgree(node.children, "\n", opt, host, opt, host.(termWidth := width));
    }
  }

  /** Styles reach the output only through the kinds that paint. */
  lemma {:induction false} PaintOnlyAtStyledKinds(node: Node, opt: RenderOptions, host: Host, paint: (Style, string) -> string)
    requires Avoids(node, Paints)
    ensures Render(node, opt, host) == Render(node, opt, host.(paint := paint))
  {
    if RendersChildren(node) {
      forall i | 0 <= i < |node.children|
        ensures Render(node.children[i], opt, host) == Render(node.children[i], opt, host.(paint := paint))
      {
        PaintOnlyAtStyledKinds(node.children[i], opt, host, paint);
      }
      RenderNodesAgree(node.children, "", opt, host, opt, host.(paint := paint));
      RenderNodesAgree(node.children, "\n", opt, host, opt, host.(paint := paint));
    }
  }

  /** Wrapping happens only at block nodes: inline runs are never filled. */
  lemma {:induction false} FillOnlyAtBlocks(node: Node, opt: RenderOptions, host: Host, fill: (string, WrapOptions) -> string)
    requires Avoids(node, IsBlock)
    ensures Render(node, opt, host) == Render(node, opt, host.(fill := fill))
  {
    if RendersChildren(node) {
      forall i | 0 <= i < |node.children|
        ensures Render(node.children[i], opt, host) == Render(node.children[i], opt, host.(fill := fill))
      {
        FillOnlyAtBlocks(node.children[i], opt, host, fill);
      }
      RenderNodesAgree(node.children, "", opt, host, opt, host.(fill := fill));
      RenderNodesAgree(node.children, "\n", opt, host, opt, host.(fill := fill));
    }
  }

  /** Paragraphs inside an unsupported node never reach the output, so a list
      holding a paragraph does not depend on the configured width. */
  lemma ParagraphInsideListIgnoresWidth(opt: RenderOptions, width: nat, host: Host)
    ensures var doc := Root([Other("list", [Paragraph([Text("x")])])]);
            Render(doc, opt, host) == Render(doc, opt.(width := width), host)
  {
  }

  // ---------------------------------------------------------------------------
  // A whole document

  /** A title heading and a body paragraph: the painted, filled heading line, a
      blank line, then the filled paragraph, each ended by a newline. */
  lemma TitleAndBody(opt: RenderOptions, host: Host)
    ensures Render(Root([Heading(1, [Text("Title")]), Paragraph([Text("Body text")])]), opt, host)
            == host.fill(host.paint(opt.styles.heading, "# Title"), WrapOptions(opt.width, "", "")) + "\n"
               + "\n"
               + host.fill("Body text", WrapOptions(opt.width, "", "")) + "\n"
  {
    var h := Heading(1, [Text("Title")]);
    var p := Paragraph([Text("Body text")]);
    RootSeparatesBlocksByBlankLine(h, p, opt, host);
    assert RenderNodes([Text("Title")], "", opt, host) == "Title";
    assert HeadingLine(1, "Title") == "# Title";
    assert RenderNodes([Text("Body text")], "", opt, host) == "Body text";
  }
}

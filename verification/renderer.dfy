/** The rendering engine: one formatting rule per kind of node, dispatched by
    `Render`, and `RenderNodes`, which renders a list of nodes and joins the
    results. */
module Renderer {
  import opened Wrappers
  import opened Strings
  import opened Mdast
  import opened Styles
  import opened Externals

  /** The widest line the default options allow. */
  const MaxWidth: nat := 120

  /** The prefix of every line of a block quote: a left one-quarter block and a space. */
  const QuotePrefix: string := "\U{258E} "
  /** The glyphs of a code block's frame: the top corner, the side bar and space,
      and the bottom corner. */
  const CodeTop: string := "\U{256D}"
  const CodeSide: string := "\U{2502} "
  const CodeBottom: string := "\U{2570}"

  datatype RenderOptions = RenderOptions(width: nat, styles: RenderStyles)
  {
    /** `RenderOptions::wrap`: fills to the configured width with no indents
        (`Options::new(width)`). */
    function Wrap(host: Host, s: string): string {
      host.fill(s, WrapOptions(width, "", ""))
    }
  }

  /** `RenderOptions::default`: the terminal's width, but never more than
      `MaxWidth`, and the built-in styles. */
  function DefaultOptions(host: Host): (opt: RenderOptions)
    ensures opt.width <= MaxWidth && opt.width <= host.termWidth
    ensures host.termWidth <= MaxWidth ==> opt.width == host.termWidth
    ensures host.termWidth >= MaxWidth ==> opt.width == MaxWidth
    ensures opt.styles == DefaultStyles()
  {
    RenderOptions(if host.termWidth < MaxWidth then host.termWidth else MaxWidth, DefaultStyles())
  }

  /** The text of a node. Block nodes end in a newline; unsupported nodes
      contribute nothing. */
  function Render(node: Node, opt: RenderOptions, host: Host): (r: string)
    decreases node, 3
    ensures IsBlock(node) ==> EndsWithNewline(r)
    ensures !IsSupported(node) ==> r == ""
  {
    match node
    case Root(children) => RenderNodes(children, "\n", opt, host)
    case Link(url, _, _) => RenderLink(url, opt, host)
    case Heading(depth, children) => RenderHeading(depth, children, opt, host)
    case Paragraph(children) => RenderParagraph(children, opt, host)
    case Text(value) => RenderText(value)
    case Emphasis(children) => RenderEmphasis(children, opt, host)
    case Strong(children) => RenderStrong(children, opt, host)
    case Break => "\n"
    case BlockQuote(children) => RenderBlockQuote(children, opt, host)
    case InlineCode(value) => RenderInlineCode(value, opt, host)
    case Code(lang, _, value) => RenderCode(lang, value, opt, host)
    case Other(_, _) => ""
  }

  /** The renderings of `nodes`, in order. */
  function RenderAll(nodes: seq<Node>, opt: RenderOptions, host: Host): (r: seq<string>)
    decreases nodes, 0
    ensures |r| == |nodes|
    ensures forall i :: 0 <= i < |nodes| ==> r[i] == Render(nodes[i], opt, host)
  {
    if |nodes| == 0 then []
    else [Render(nodes[0], opt, host)] + RenderAll(nodes[1..], opt, host)
  }

  /** The renderings of `nodes` joined with `sep`: nothing for no nodes, the
      node's own text for one node. */
  function RenderNodes(nodes: seq<Node>, sep: string, opt: RenderOptions, host: Host): (r: string)
    decreases nodes, 1
    ensures |nodes| == 0 ==> r == ""
    ensures |nodes| == 1 ==> r == Render(nodes[0], opt, host)
  {
    Join(RenderAll(nodes, opt, host), sep)
  }

  /** `depth` hashes, a space, then the content. */
  function HeadingLine(depth: nat, content: string): (r: string)
    ensures |r| == depth + 1 + |content|
    ensures forall i :: 0 <= i < depth ==> r[i] == '#'
    ensures r[depth] == ' ' && r[depth + 1..] == content
  {
    RepeatChar('#', depth) + " " + content
  }

  function RenderHeading(depth: HeadingDepth, children: seq<Node>, opt: RenderOptions, host: Host): (r: string)
    decreases children, 2
    ensures EndsWithNewline(r)
  {
    var content := RenderNodes(children, "", opt, host);
    var content := host.paint(opt.styles.heading, HeadingLine(depth, content));
    opt.Wrap(host, content) + "\n"
  }

  /** A link shows its destination only. */
  function RenderLink(url: string, opt: RenderOptions, host: Host): string {
    host.paint(opt.styles.link, url)
  }

  function RenderText(value: string): string {
    value
  }

  function RenderEmphasis(children: seq<Node>, opt: RenderOptions, host: Host): string
    decreases children, 2
  {
    host.paint(opt.styles.emphasis, RenderNodes(children, "", opt, host))
  }

  function RenderStrong(children: seq<Node>, opt: RenderOptions, host: Host): string
    decreases children, 2
  {
    host.paint(opt.styles.strong, RenderNodes(children, "", opt, host))
  }

  function RenderParagraph(children: seq<Node>, opt: RenderOptions, host: Host): (r: string)
    decreases children, 2
    ensures EndsWithNewline(r)
  {
    opt.Wrap(host, RenderNodes(children, "", opt, host)) + "\n"
  }

  function RenderInlineCode(value: string, opt: RenderOptions, host: Host): string {
    host.paint(opt.styles.inlineCode, value)
  }

  /** A block quote is filled to the terminal's width, not the configured one,
      with the quote bar before every line. */
  function RenderBlockQuote(children: seq<Node>, opt: RenderOptions, host: Host): (r: string)
    decreases children, 2
    ensures EndsWithNewline(r)
  {
    var content := RenderNodes(children, "", opt, host);
    host.fill(content, WrapOptions(host.termWidth, QuotePrefix, QuotePrefix)) + "\n"
  }

  /** The header line of a code block: the top corner and the language label. */
  function CodeHeader(lang: Option<string>, opt: RenderOptions, host: Host): string {
    var name := (match lang case Some(l) => l case None => "");
    host.paint(opt.styles.codeBlockBorder, CodeTop) + " " + host.paint(opt.styles.strong, name)
  }

  /** The body of a code block: its text filled to the terminal's width with
      the painted side bar before every line. */
  function CodeBody(value: string, opt: RenderOptions, host: Host): string {
    var border := host.paint(opt.styles.codeBlockBorder, CodeSide);
    host.fill(value, WrapOptions(host.termWidth, border, border))
  }

  /** The kinds whose rule renders their children. Links and unsupported kinds
      never look at theirs. */
  predicate RendersChildren(n: Node) {
    n.Root? || n.Heading? || n.Paragraph? || n.Emphasis? || n.Strong? || n.BlockQuote?
  }

  /** No node that rendering `n` visits satisfies `bad`. */
  predicate Avoids(n: Node, bad: Node -> bool) {
    && !bad(n)
    && (RendersChildren(n) ==> forall i :: 0 <= i < |n.children| ==> Avoids(n.children[i], bad))
  }

  function RenderCode(lang: Option<string>, value: string, opt: RenderOptions, host: Host): (r: string)
    ensures EndsWithNewline(r)
  {
    var before := CodeHeader(lang, opt, host);
    var after := host.paint(opt.styles.codeBlockBorder, CodeBottom);
    before + "\n" + CodeBody(value, opt, host) + "\n" + after + "\n"
  }
}

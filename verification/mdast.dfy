/** The document tree produced by the markdown parser (`markdown::mdast::Node`),
    restricted to the attributes the renderer reads, plus the title of a link
    and the meta string of a code block, which it ignores. Source positions
    are not modelled. */
module Mdast {
  import opened Wrappers

  /** A heading depth is a `u8`; the parser only produces 1 to 6. */
  type HeadingDepth = d: nat | d < 256

  datatype Node =
    | Root(children: seq<Node>)
    | Heading(depth: HeadingDepth, children: seq<Node>)
    | Paragraph(children: seq<Node>)
    | Text(value: string)
    | Emphasis(children: seq<Node>)
    | Strong(children: seq<Node>)
    | Break
    | BlockQuote(children: seq<Node>)
    | InlineCode(value: string)
    | Code(lang: Option<string>, meta: Option<string>, value: string)
    | Link(url: string, title: Option<string>, children: seq<Node>)
      /** Every other kind of node (lists, tables, images, HTML, ...). */
    | Other(kind: string, children: seq<Node>)

  /** The kinds the renderer has a rule for. */
  predicate IsSupported(n: Node) {
    !n.Other?
  }

  /** The block kinds whose rule terminates the output with a newline. */
  predicate IsBlock(n: Node) {
    n.Heading? || n.Paragraph? || n.BlockQuote? || n.Code?
  }
}

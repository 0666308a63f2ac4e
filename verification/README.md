# mdv renderer, modelled in Dafny

mdv prints a markdown file to the terminal with colour and line wrapping. Its
core is the rendering engine of `src/renderer.rs`: a pure recursive function
from the parser's document tree (`markdown::mdast::Node`) to one string. It
has one formatting rule per supported kind of node. `render_nodes` renders a
list of nodes and joins the results with a separator. Every unsupported kind
renders to the empty string.

The model is structured as follows:

- `wrappers.dfy`: `Option`, for a code block's language, a link's title and a style's colours.
- `strings.dfy`: character repetition (`"#".repeat(n)`), `Join`
  (`[String]::join`) and the join lemmas.
- `mdast.dfy`: the document tree. It has the eleven kinds the renderer
  handles, plus `Other` for every remaining kind.
- `styles.dfy`: style descriptors (`nu_ansi_term::Style`) and the six-role
  style table `RenderStyles` with its default values.
- `externals.dfy`: the collaborators whose code is not modelled. `Host`
  bundles three things:
  - `paint`: `Style::paint(..).to_string()`;
  - `fill`: `textwrap::fill`, with `WrapOptions` for `textwrap::Options`;
  - `termWidth`: the terminal width that `textwrap::termwidth()` reports.

  They are function-valued parameters, so every property below holds for any
  behaviour of the painting and wrapping libraries.
- `renderer.dfy`: `RenderOptions` and its default, `Render`, `RenderNodes`
  and the per-kind rules. `Avoids(n, bad)` says that no node rendering `n`
  visits is of a given sort; it does not look inside links or unsupported
  nodes, whose children are never rendered.
- `properties.dfy`: the properties of the engine.

The engine uses two different widths, and the model keeps them apart:

- Headings and paragraphs fill to the configured `RenderOptions.width`.
- Block quotes and code blocks fill to the terminal's width
  (`Options::with_termwidth()`).

`ConfiguredWidthOnlyAtHeadingsAndParagraphs` and
`TerminalWidthOnlyAtQuotesAndCode` state this split.

The parser only produces heading depths 1 to 6, but `render_heading` takes
any `u8`, so the model allows any depth below 256.

## Model

| member | source | states |
|---|---|---|
| Strings.RepeatChar | src/renderer.rs:75 | `"#".repeat(n)` is exactly `n` characters, all of them `#` |
| Strings.Join | src/renderer.rs:142 | joining no parts gives `""`; otherwise the result is as long as all the parts plus one separator fewer than there are parts |
| Strings.JoinEndsWithLast | src/renderer.rs:142 | a join of a non-empty list ends with its last part |
| Strings.JoinAppend | src/renderer.rs:142 | joining a concatenation of two non-empty lists gives the two joins with one separator between them |
| Strings.JoinOfEmpties | src/renderer.rs:142 | joining `n` empty parts with a one-character separator gives `n - 1` copies of that character |
| Styles.DefaultStyles | src/renderer.rs:40-51 | the six roles all get different styles; only links are underlined; only inline code has a background; headings and strong text are bold; emphasis is italic |
| Renderer.DefaultOptions | src/renderer.rs:22-29 | the default width is the minimum of the terminal width and 120, so it never exceeds 120; the default styles are the built-in table |
| Renderer.Render | src/renderer.rs:53-71 | every block node (heading, paragraph, block quote, code block) renders to text ending in a newline; every unsupported kind renders to `""` |
| Renderer.RenderNodes | src/renderer.rs:140-143 | an empty list renders to `""`; a one-node list renders to that node's own text, with no separator |
| Renderer.RenderAll | src/renderer.rs:141 | mapping `render` over the nodes gives one string per node, in order, each being that node's rendering |
| Renderer.HeadingLine | src/renderer.rs:75 | the heading text is `depth` hashes, then one space, then the children's text |
| Renderer.RenderHeading | src/renderer.rs:77 | a rendered heading ends in a newline |
| Renderer.RenderParagraph | src/renderer.rs:101 | a rendered paragraph ends in a newline |
| Renderer.RenderBlockQuote | src/renderer.rs:110-111 | a rendered block quote ends in a newline |
| Renderer.RenderCode | src/renderer.rs:137 | a rendered code block ends in a newline |
| RendererProperties.RenderNodesAppend | src/renderer.rs:140-143 | rendering `a + b` gives `a`'s text, the separator, then `b`'s text |
| RendererProperties.RootUnsupportedChildLeavesGap | src/renderer.rs:53-71 | an unsupported root child between siblings leaves only its two newline separators, and the siblings' text is unchanged |
| RendererProperties.RootUnsupportedFirstChild | src/renderer.rs:55 | an unsupported first root child leaves a leading newline before the rest of the root's text |
| RendererProperties.RootUnsupportedLastChild | src/renderer.rs:55 | an unsupported last root child leaves a trailing newline after the rest of the root's text |
| RendererProperties.RootOfUnsupportedIsNewlines | src/renderer.rs:53-71 | a root whose `n` children are all unsupported renders as `n - 1` newlines |
| RendererProperties.RootSeparatesBlocksByBlankLine | src/renderer.rs:55 | a root with children `[x, y]` renders as `x`, a newline, then `y`; when `x` is a block this puts a blank line between the two |
| RendererProperties.RootEndsWithNewline | src/renderer.rs:55 | a root whose last child is a block ends in a newline |
| RendererProperties.WrapUsesConfiguredWidth | src/renderer.rs:13-19 | `RenderOptions::wrap` fills at the configured width with empty first-line and continuation indents; the terminal width and the styles play no part |
| RendererProperties.TextIsVerbatim | src/renderer.rs:84-86 | text renders as its literal value, for any options and any painter or wrapper |
| RendererProperties.BreakAndUnsupported | src/renderer.rs:62-69 | a break renders as exactly one newline; an unsupported kind renders as `""` whatever its children |
| RendererProperties.LinkShowsOnlyUrl | src/renderer.rs:80-82 | a link renders as its URL painted in the link style; two links with the same URL render identically, whatever their labels and titles |
| RendererProperties.HeadingLayout | src/renderer.rs:73-78 | a heading is the heading-styled `#…# text` line, filled to the configured width with no indents, then a newline |
| RendererProperties.ParagraphLayout | src/renderer.rs:99-102 | a paragraph is its children's concatenation, filled to the configured width with no indents, then a newline |
| RendererProperties.InlineStyleLayout | src/renderer.rs:88-106 | emphasis, strong text and inline code are their content painted in their role's style, with no wrapping and no added newline |
| RendererProperties.BlockQuoteLayout | src/renderer.rs:108-119 | a block quote is its children's concatenation, filled to the terminal width with `▎ ` before the first and every later line, then a newline |
| RendererProperties.CodeBlockLayout | src/renderer.rs:121-138 | a code block is a header line, the body and a footer line, each followed by a newline. The header is the painted `╭`, a space and the bold language label. The body is the code filled to the terminal width, with the painted `│ ` before every line (`CodeHeader` and `CodeBody` build these two parts). The footer is the painted `╰` |
| RendererProperties.CodeMissingLangIsEmptyLabel | src/renderer.rs:127 | a code block with no language renders like one whose language is `""`; the meta string is ignored |
| RendererProperties.ConfiguredWidthOnlyAtHeadingsAndParagraphs | src/renderer.rs:53-138 | in a tree with no heading or paragraph, changing the configured width does not change the output |
| RendererProperties.TerminalWidthOnlyAtQuotesAndCode | src/renderer.rs:108-138 | in a tree with no block quote or code block, changing the terminal width does not change the output |
| RendererProperties.PaintOnlyAtStyledKinds | src/renderer.rs:53-138 | in a tree with no heading, emphasis, strong, link, inline code or code block, the painter has no effect on the output |
| RendererProperties.FillOnlyAtBlocks | src/renderer.rs:53-138 | in a tree with no block node, the wrapper has no effect on the output: inline runs are never wrapped |
| RendererProperties.ParagraphInsideListIgnoresWidth | src/renderer.rs:66-69 | a paragraph inside an unsupported node (a list) is never rendered, so the configured width does not change that document's output |
| RendererProperties.TitleAndBody | src/renderer.rs:53-102 | `[Heading(1, "Title"), Paragraph("Body text")]` renders as the filled, painted `# Title`, a newline, a blank line, then the filled `Body text` and a newline |

## Left out

- The wrapping algorithm of `textwrap::fill` (greedy breaking, display-width measurement that skips escape sequences) is foreign library code; `fill` is a parameter, so the model states nothing about line lengths or break positions.
- The escape sequences `nu_ansi_term` emits are foreign library code; `paint` is a parameter. Style attributes the renderer never sets (dimmed, blink, reverse, hidden, strikethrough) are not modelled. Neither are the colours it never uses: `Magenta`, `LightMagenta`, `Default`, and the numbered and RGB colours.
- `textwrap::termwidth()` is an operating-system query; its result is the `termWidth` parameter.
- The terminal width is taken as fixed for one render. The source queries it separately for the default options (src/renderer.rs:25) and for every block quote and code block (src/renderer.rs:114, 133). The model uses the single value `termWidth` for all of them, so `DefaultOptions`' bound `width <= termWidth` relates values the program reads at different moments.
- Source positions of tree nodes are not read by the renderer and are not modelled.
- `src/document.rs` (reading the file, calling the markdown parser, timing traces, printing the result line by line) is I/O and a foreign parser; it is not part of this model.
- `src/main.rs` (argument handling, logger set-up, error propagation) is process glue; it is not part of this model.
- Renderer.Render: its own contract states only the newline at the end of block nodes and the empty fallback. The equation for each kind is stated by the `...Layout` lemmas and by `TextIsVerbatim`, `BreakAndUnsupported` and `LinkShowsOnlyUrl`.
- Renderer.RenderHeading: its contract states only the final newline. The full layout is stated by `HeadingLayout`.
- Renderer.RenderParagraph: its contract states only the final newline. The full layout is stated by `ParagraphLayout`.
- Renderer.RenderBlockQuote: its contract states only the final newline. The full layout is stated by `BlockQuoteLayout`.
- Renderer.RenderCode: its contract states only the final newline. The full layout is stated by `CodeBlockLayout`.
- Determinism and idempotence of rendering hold by construction, since every member is a pure function, so they get no lemma.

/** Terminal styles (`nu_ansi_term::Style`) and the fixed table of six styles
    the renderer uses, one per role (`RenderStyles`). */
module Styles {
  import opened Wrappers

  /** The named terminal colours (magenta and the default colour are not modelled). */
  datatype Color =
    | Black | DarkGray | Red | LightRed | Green | LightGreen | Yellow | LightYellow
    | Blue | LightBlue | Purple | LightPurple | Cyan | LightCyan | White | LightGray

  /** A style descriptor: the attributes the renderer sets. */
  datatype Style = Style(
    foreground: Option<Color>,
    background: Option<Color>,
    bold: bool,
    italic: bool,
    underline: bool)

  /** `Style::default()`: no colour, no attribute. */
  const Plain := Style(None, None, false, false, false)

  /** One style per role the renderer paints. */
  datatype RenderStyles = RenderStyles(
    heading: Style,
    emphasis: Style,
    strong: Style,
    link: Style,
    inlineCode: Style,
    codeBlockBorder: Style)
  {
    /** The six roles' styles in declaration order. */
    function Roles(): seq<Style> {
      [heading, emphasis, strong, link, inlineCode, codeBlockBorder]
    }
  }

  /** The built-in style table: purple bold headings, italic emphasis, bold
      strong text, blue underlined links, light red on dark gray inline code and
      light red code-block borders. */
  function DefaultStyles(): (s: RenderStyles)
    ensures forall i, j :: 0 <= i < j < |s.Roles()| ==> s.Roles()[i] != s.Roles()[j]
    ensures forall i :: 0 <= i < |s.Roles()| ==> (s.Roles()[i].underline <==> s.Roles()[i] == s.link)
    ensures forall i :: 0 <= i < |s.Roles()| ==> (s.Roles()[i].background.Some? <==> s.Roles()[i] == s.inlineCode)
    ensures s.heading.bold && s.strong.bold && s.emphasis.italic
  {
    RenderStyles(
      heading := Plain.(foreground := Some(Purple), bold := true),
      emphasis := Plain.(italic := true),
      strong := Plain.(bold := true),
      link := Plain.(foreground := Some(Blue), underline := true),
      inlineCode := Plain.(foreground := Some(LightRed), background := Some(DarkGray)),
      codeBlockBorder := Plain.(foreground := Some(LightRed)))
  }
}

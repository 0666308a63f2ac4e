/** The collaborators the renderer calls but whose code is not modelled:
    `Style::paint` (followed by `to_string`), `textwrap::fill` and
    `textwrap::termwidth`. They are parameters; every property of the renderer
    holds whatever they compute. */
module Externals {
  import opened Styles

  /** `textwrap::Options`: the line width and the indents put before the first
      line and before every later line. */
  datatype WrapOptions = WrapOptions(width: nat, initialIndent: string, subsequentIndent: string)

  datatype Host = Host(
    /** The text wrapped in the escape sequences of a style. */
    paint: (Style, string) -> string,
    /** The text wrapped to the options' width, indents included. */
    fill: (string, WrapOptions) -> string,
    /** The width of the terminal the output goes to, taken as the same
        for every query during one render. */
    termWidth: nat)
}

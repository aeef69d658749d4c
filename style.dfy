/** The attribute bundle attached to a span (`crate::style::Style`).
    This core only stores and forwards it, so it is an opaque type with a
    distinguished "no styling" value, `Style::default()`. */
module Styles {

  /** Colours and modifiers live in another part of the crate and are never
      inspected here; only equality is observable. */
  type Style(==, 0)

  /** `Style::default()`: no colours, no modifiers. */
  const DefaultStyle: Style
}

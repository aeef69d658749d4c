# Styled text of tui-rs, modelled in Dafny

This project models the styled-text core of the tui-rs terminal toolkit
(`src/text.rs`). It has three layers:

- a **span** is a piece of content with one attached style;
- a **line** is an ordered sequence of spans drawn left to right;
- a **text** is an ordered sequence of lines drawn top to bottom.

The model also covers the constructors and conversions that build these
values, the extraction of a line back to a plain string, and the three width
measurements. A span's width is the display width of its content. A line's
width is the sum of its span widths. A text's width is its widest line, and
0 when it has no lines.

Files:

- `style.dfy` (module `Styles`): `Style` as an opaque type with a
  distinguished `DefaultStyle`.
- `unicode_width.dfy` (module `UnicodeWidth`): the display-width primitive
  from the `unicode_width` crate. It is the sum of per-character widths,
  where control characters count 0, zero-width marks count 0, wide
  East-Asian characters count 2 and all others count 1.
- `text.dfy` (module `StyledText`): `Span`, `Line` and `Text` as datatypes.
  The Rust `fold`s are accumulator functions (`FoldWidths`, `FoldContents`,
  `FoldMax`). Each fold is tied by its contract to a reference definition
  (`SumWidths`, `Contents`) or to the characterisation of a maximum.

The borrowed-or-owned `Cow<str>` content is modelled by its logical value,
a `string`. `From<String>` and `From<&str>` therefore become one function
each, `Span.FromStr` and `Line.FromStr`. `Text::with_lines` takes the sequence of lines directly. In the source it
takes `T: Into<Vec<Line>>`, and there is no conversion from `Vec<&str>` or
`Vec<String>` into `Vec<Line>`, so a text is never built from plain strings
in one step.

Widths use the non-CJK variant of the width table (`UnicodeWidthStr::width`).
That variant counts East-Asian ambiguous-width characters as one column,
not two.

## Model

| member | source | states |
|---|---|---|
| `StyledText.Span.Raw` | src/text.rs:12-20 | the span holds exactly the given content, with the default style |
| `StyledText.Span.Styled` | src/text.rs:22-30 | the span holds exactly the given content and the given style |
| `StyledText.Span.FromStr` | src/text.rs:37-47 | converting a string to a span is `Span::raw` of that string |
| `StyledText.Span.Width` | src/text.rs:32-34 | a span is at most two columns per character wide, and exactly one per printable ASCII character |
| `StyledText.SpanWidthIgnoresStyle` | src/text.rs:32-34 | a span's width is the display width of its content; restyling the same content keeps the width |
| `StyledText.Line.Default` | src/text.rs:54-58 | the default line has no spans |
| `StyledText.Line.WithSpans` | src/text.rs:84-87 | `with_spans` keeps the given spans verbatim: same spans, same order, no merging |
| `StyledText.Line.FromSpans` | src/text.rs:72-76 | converting a vector of spans is `with_spans` and keeps the spans verbatim |
| `StyledText.Line.FromSpan` | src/text.rs:78-82 | converting one span gives a line holding exactly that span |
| `StyledText.Line.FromStr` | src/text.rs:60-70 | converting a string gives exactly one unstyled span holding the whole string |
| `StyledText.FoldWidths` | src/text.rs:90 | the left fold `acc + s.width()` from accumulator `acc` yields `acc` plus the sum of the span widths |
| `StyledText.Line.Width` | src/text.rs:89-91 | line width is the sum of its span widths |
| `StyledText.SumWidthsAppend` | src/text.rs:89-91 | the sum of span widths distributes over concatenating span sequences |
| `StyledText.LineWidthAppend` | src/text.rs:89-91 | joining the spans of two lines gives the sum of their widths |
| `StyledText.LineWidthPush` | src/text.rs:89-91 | appending a span to a line increases its width by exactly that span's width |
| `StyledText.LineWidthBase` | src/text.rs:54-91 | the default line has width 0 and extracts to `""`; a one-span line is as wide as its span |
| `StyledText.FoldContents` | src/text.rs:96-99 | the `push_str` fold from accumulator `acc` yields `acc` followed by the span contents in order |
| `StyledText.Line.ToString` | src/text.rs:94-101 | `String::from(line)` is the in-order concatenation of span contents, styles dropped |
| `StyledText.ContentsAppend` | src/text.rs:94-101 | extraction distributes over concatenating span sequences |
| `StyledText.LineToStringPieces` | src/text.rs:94-101 | each span's content appears whole in the extraction, after all earlier spans' content and before all later spans' content |
| `StyledText.LineStringRoundTrip` | src/text.rs:60-101 | string to line and back to string returns the original string |
| `StyledText.LineFromStrWidth` | src/text.rs:60-70 | a line made from a string is as wide as that string |
| `StyledText.ContentsWidth` | src/text.rs:89-101 | the display width of the concatenated contents equals the sum of the span widths |
| `StyledText.LineToStringWidth` | src/text.rs:89-101 | the display width of `String::from(line)` is `line.width()` |
| `StyledText.NewlineNotSplit` | src/text.rs:60-70 | a string with an embedded line break becomes one line of one span, and the break takes no columns |
| `StyledText.TwoSpanLine` | src/text.rs:84-101 | spans "ab" (unstyled) and "c" (any style) give width 3 and extract to "abc" |
| `StyledText.Max` | src/text.rs:131 | `max(a, b)` is an upper bound of both arguments and equals one of them |
| `StyledText.FoldMax` | src/text.rs:131 | the max fold from `acc` is at least `acc` and every line width, and is `acc` or one of the line widths |
| `StyledText.Text.Default` | src/text.rs:108-112 | the default text has no lines |
| `StyledText.Text.FromLines` | src/text.rs:114-118 | converting a vector of lines keeps the lines verbatim |
| `StyledText.Text.WithLines` | src/text.rs:120-128 | `with_lines` keeps the lines verbatim and equals the `From` conversion |
| `StyledText.Text.Width` | src/text.rs:130-132 | text width is 0 with no lines, at least every line's width, and for a non-empty text equal to some line's width |
| `StyledText.TextWidthLeast` | src/text.rs:130-132 | text width is at most any bound on all line widths, so it is the least upper bound |
| `StyledText.StackedWithinWider` | src/text.rs:130-132 | two stacked texts are no wider than the wider of the two |
| `StyledText.StackedNoNarrower` | src/text.rs:130-132 | two stacked texts are at least as wide as each of them |
| `StyledText.TextWidthAppend` | src/text.rs:130-132 | stacking two texts gives the larger of their widths |
| `StyledText.TextWidthPush` | src/text.rs:130-132 | adding a line gives the larger of the old width and the new line's width |
| `StyledText.EmptyText` | src/text.rs:108-132 | the default, `with_lines([])` and `From` of an empty vector are the same text, of width 0 |
| `StyledText.SpanThroughText` | src/text.rs:78-118 | a span wrapped into a line and then into a text reads back unchanged, and the text is as wide as the span |
| `StyledText.WidestOfThree` | src/text.rs:130-132 | three lines of widths 5, 5 and 6 stack into a text of width 6 |
| `StyledText.ThreeLineText` | src/text.rs:130-132 | lines "hello", "héllo" and "日本語" measure 5, 5 and 6, and their text measures 6 |
| `StyledText.AccentedWidth` | src/text.rs:33 | "héllo" with a precomposed accented letter is 5 columns wide |
| `StyledText.IdeographWidth` | src/text.rs:33 | three CJK ideographs are 6 columns wide |
| `UnicodeWidth.CharWidth` | src/text.rs:3 | a character is 0, 1 or 2 columns wide; printable ASCII is 1; control characters are 0 |
| `UnicodeWidth.MarksInWideBlocks` | src/text.rs:33 | combining kana and ideographic tone marks are 0 columns, a neutral pictograph is 1, an emoticon is 2 |
| `UnicodeWidth.DisplayWidth` | src/text.rs:33 | a string is at most two columns per character wide, and exactly one per printable ASCII character |
| `UnicodeWidth.DisplayWidthConcat` | src/text.rs:33 | the width of a concatenation is the sum of the widths |

## Left out

- `UnicodeWidth.CharWidth`: the `unicode_width` crate's full East-Asian-width and combining-mark table is foreign code. The model uses an abbreviated table of the main zero-width and wide ranges. Characters outside those ranges may measure differently than in the crate (most combining marks outside the listed blocks count 1 here, not 0). Characters inside the listed ranges may differ too, because the ranges are coarse: unassigned code points and the few combining or neutral characters not carved out (for example inside U+2E80–U+303E or U+3041–U+33FF) count 2 here. None of the general properties depend on the table.
- `Style` internals (colours, modifiers): an external type that this code only stores and forwards. It is kept opaque.
- `usize` overflow: widths are unbounded naturals. The Rust folds `acc + s.width()` do not check for overflow.
- `Cow` borrowed-versus-owned representation and Rust lifetimes: content is a plain string.
- The generic `Into<Vec<Line>>` plumbing of `Text::with_lines`: the model takes a sequence of lines.
- `Debug`, `Clone` and `PartialEq` derives: Dafny datatypes have structural equality and no identity.
- examples/chart.rs (terminal setup, event loop, widget rendering, floating-point signal data) is not part of this model.

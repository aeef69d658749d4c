/** Styled text as built by widgets before rendering (src/text.rs):
    a `Span` is content with one style, a `Line` an ordered sequence of
    spans drawn left to right, a `Text` an ordered sequence of lines drawn
    top to bottom. Widths are always derived, never stored. */
module StyledText {
  import opened Styles
  import opened UnicodeWidth

  /** A piece of content with one attached style. The borrowed-or-owned
      `Cow<str>` content is modelled by its logical value, a string. */
  datatype Span = Span(content: string, style: Style) {

    /** `Span::raw`: the given content, unstyled. */
    static function Raw(content: string): (s: Span)
      ensures s.content == content && s.style == DefaultStyle
    {
      Span(content, DefaultStyle)
    }

    /** `Span::styled`: the given content with the given style. */
    static function Styled(content: string, style: Style): (s: Span)
      ensures s.content == content && s.style == style
    {
      Span(content, style)
    }

    /** `From<String>` and `From<&str>`: both are `Span::raw`. */
    static function FromStr(s: string): (sp: Span)
      ensures sp == Raw(s)
      ensures sp.content == s && sp.style == DefaultStyle
    {
      Raw(s)
    }

    /** `Span::width`: the display width of the content, which is at most
        two columns per character and one per printable ASCII character. */
    function Width(): (w: nat)
      ensures w <= 2 * |content|
      ensures IsPrintableAscii(content) ==> w == |content|
    {
      DisplayWidth(content)
    }
  }

  /** Sum of the span widths, from the first span to the last. */
  function SumWidths(spans: seq<Span>): (r: nat)
  {
    if spans == [] then 0 else spans[0].Width() + SumWidths(spans[1..])
  }

  /** The contents of the spans, concatenated in order, styles dropped. */
  function Contents(spans: seq<Span>): (r: string)
  {
    if spans == [] then "" else spans[0].content + Contents(spans[1..])
  }

  /** `spans.iter().fold(acc, |acc, s| acc + s.width())`. */
  function FoldWidths(acc: nat, spans: seq<Span>): (r: nat)
    ensures r == acc + SumWidths(spans)
    decreases spans
  {
    if spans == [] then acc else FoldWidths(acc + spans[0].Width(), spans[1..])
  }

  /** `spans.iter().fold(acc, |mut acc, s| { acc.push_str(&s.content); acc })`. */
  function FoldContents(acc: string, spans: seq<Span>): (r: string)
    ensures r == acc + Contents(spans)
    decreases spans
  {
    if spans == [] then acc else FoldContents(acc + spans[0].content, spans[1..])
  }

  /** An ordered sequence of spans, rendered as one row. */
  datatype Line = Line(spans: seq<Span>) {

    /** `Line::default()`: no spans. */
    static function Default(): (l: Line)
      ensures l.spans == []
    {
      Line([])
    }

    /** `Line::with_spans`: the given spans verbatim, in order, unmerged. */
    static function WithSpans(spans: seq<Span>): (l: Line)
      ensures l.spans == spans
    {
      Line(spans)
    }

    /** `From<Vec<Span>>`: the same as `with_spans`. */
    static function FromSpans(spans: seq<Span>): (l: Line)
      ensures l == WithSpans(spans)
      ensures l.spans == spans
    {
      Line(spans)
    }

    /** `From<Span>`: a line holding exactly that span. */
    static function FromSpan(span: Span): (l: Line)
      ensures l.spans == [span]
    {
      Line([span])
    }

    /** `From<String>` and `From<&str>`: exactly one unstyled span holding
        the whole string; embedded line breaks are not split on. */
    static function FromStr(s: string): (l: Line)
      ensures |l.spans| == 1
      ensures l.spans[0].content == s && l.spans[0].style == DefaultStyle
    {
      WithSpans([Span.FromStr(s)])
    }

    /** `Line::width`: the sum of the span widths. */
    function Width(): (w: nat)
      ensures w == SumWidths(spans)
    {
      FoldWidths(0, spans)
    }

    /** `From<Line> for String`: the span contents concatenated in order,
        styles discarded. */
    function ToString(): (r: string)
      ensures r == Contents(spans)
    {
      FoldContents("", spans)
    }
  }

  /** Max as `std::cmp::max`. */
  function Max(a: nat, b: nat): (m: nat)
    ensures a <= m && b <= m && (m == a || m == b)
  {
    if b >= a then b else a
  }

  /** `lines.iter().fold(acc, |acc, l| max(acc, l.width()))`: an upper bound
      of `acc` and of every line width that is `acc` or one of the widths. */
  function FoldMax(acc: nat, lines: seq<Line>): (r: nat)
    ensures acc <= r
    ensures forall i :: 0 <= i < |lines| ==> lines[i].Width() <= r
    ensures r == acc || exists i :: 0 <= i < |lines| && r == lines[i].Width()
    decreases lines
  {
    if lines == [] then acc
    else
      var r := FoldMax(Max(acc, lines[0].Width()), lines[1..]);
      assert forall i :: 1 <= i < |lines| ==> lines[i] == lines[1..][i - 1];
      r
  }

  /** An ordered sequence of lines (the `lines` field is private in the
      source, so a text is only built by the constructors below). */
  datatype Text = Text(lines: seq<Line>) {

    /** `Text::default()`: no lines. */
    static function Default(): (t: Text)
      ensures t.lines == []
    {
      Text([])
    }

    /** `From<Vec<Line>>`: takes the lines verbatim. */
    static function FromLines(lines: seq<Line>): (t: Text)
      ensures t.lines == lines
    {
      Text(lines)
    }

    /** `Text::with_lines`: the given lines verbatim. */
    static function WithLines(lines: seq<Line>): (t: Text)
      ensures t == FromLines(lines)
      ensures t.lines == lines
    {
      Text(lines)
    }

    /** `Text::width`: the largest line width, 0 for no lines. */
    function Width(): (w: nat)
      ensures lines == [] ==> w == 0
      ensures forall i :: 0 <= i < |lines| ==> lines[i].Width() <= w
      ensures lines != [] ==> exists i :: 0 <= i < |lines| && w == lines[i].Width()
    {
      var w := FoldMax(0, lines);
      assert lines != [] && w == 0 ==> w == lines[0].Width();
      w
    }
  }

  // ---------------------------------------------------------------------
  // Properties of spans

  /** The width of a span is a function of its content alone. */
  lemma SpanWidthIgnoresStyle(sp: Span, other: Style)
    ensures sp.Width() == DisplayWidth(sp.content)
    ensures Span.Styled(sp.content, other).Width() == sp.Width()
  {
  }

  // ---------------------------------------------------------------------
  // Properties of lines

  /** The sum of widths distributes over concatenation of span sequences. */
  lemma {:induction false} SumWidthsAppend(a: seq<Span>, b: seq<Span>)
    ensures SumWidths(a + b) == SumWidths(a) + SumWidths(b)
  {
    if a == [] {
      assert a + b == b;
    } else {
      assert (a + b)[1..] == a[1..] + b;
      SumWidthsAppend(a[1..], b);
    }
  }

  /** Joining two lines' spans adds their widths. */
  lemma LineWidthAppend(a: Line, b: Line)
    ensures Line.WithSpans(a.spans + b.spans).Width() == a.Width() + b.Width()
  {
    SumWidthsAppend(a.spans, b.spans);
  }

  /** Appending a span widens a line by exactly that span's width. */
  lemma LineWidthPush(l: Line, span: Span)
    ensures Line.WithSpans(l.spans + [span]).Width() == l.Width() + span.Width()
  {
    SumWidthsAppend(l.spans, [span]);
  }

  /** The empty line and a one-span line. */
  lemma LineWidthBase(span: Span)
    ensures Line.Default().Width() == 0
    ensures Line.FromSpan(span).Width() == span.Width()
    ensures Line.Default().ToString() == ""
  {
  }

  /** Extraction distributes over concatenation of span sequences. */
  lemma {:induction false} ContentsAppend(a: seq<Span>, b: seq<Span>)
    ensures Contents(a + b) == Contents(a) + Contents(b)
  {
    if a == [] {
      assert a + b == b;
    } else {
      assert (a + b)[1..] == a[1..] + b;
      ContentsAppend(a[1..], b);
    }
  }

  /** Extraction keeps every character in order: the content of the i-th
      span appears in the result right after the contents of the spans
      before it. */
  lemma LineToStringPieces(l: Line, i: nat)
    requires i < |l.spans|
    ensures l.ToString()
         == Contents(l.spans[..i]) + l.spans[i].content + Contents(l.spans[i + 1..])
  {
    assert l.spans == l.spans[..i] + l.spans[i..];
    ContentsAppend(l.spans[..i], l.spans[i..]);
  }

  /** Plain text to a line and back gives the text unchanged. */
  lemma LineStringRoundTrip(s: string)
    ensures Line.FromStr(s).ToString() == s
  {
    assert Line.FromStr(s).spans == [Span.Raw(s)];
  }

  /** Measuring the extracted text gives the line's width: styles do not
      affect widths, and spans are not separated by anything. */
  lemma {:induction false} ContentsWidth(spans: seq<Span>)
    ensures DisplayWidth(Contents(spans)) == SumWidths(spans)
  {
    if spans != [] {
      DisplayWidthConcat(spans[0].content, Contents(spans[1..]));
      ContentsWidth(spans[1..]);
    }
  }

  /** `Line::width` is the width of `String::from(line)`. */
  lemma LineToStringWidth(l: Line)
    ensures DisplayWidth(l.ToString()) == l.Width()
  {
    ContentsWidth(l.spans);
  }

  /** A line made from one string is as wide as that string. */
  lemma LineFromStrWidth(s: string)
    ensures Line.FromStr(s).Width() == DisplayWidth(s)
  {
    assert Line.FromStr(s).spans == [Span.Raw(s)];
  }

  // ---------------------------------------------------------------------
  // Properties of texts

  /** The text width is the least upper bound of its line widths. */
  lemma TextWidthLeast(t: Text, bound: nat)
    requires forall i :: 0 <= i < |t.lines| ==> t.lines[i].Width() <= bound
    ensures t.Width() <= bound
  {
    if t.lines != [] {
      var i :| 0 <= i < |t.lines| && t.Width() == t.lines[i].Width();
    }
  }

  /** Every line of two stacked texts is within the wider of the two. */
  lemma StackedWithinWider(a: Text, b: Text)
    ensures Text.WithLines(a.lines + b.lines).Width() <= Max(a.Width(), b.Width())
  {
    var c := a.lines + b.lines;
    forall i | 0 <= i < |c| ensures c[i].Width() <= Max(a.Width(), b.Width()) {
      if i < |a.lines| {
        assert c[i] == a.lines[i];
      } else {
        assert c[i] == b.lines[i - |a.lines|];
      }
    }
    TextWidthLeast(Text.WithLines(c), Max(a.Width(), b.Width()));
  }

  /** Stacking texts never narrows either of them. */
  lemma StackedNoNarrower(a: Text, b: Text)
    ensures a.Width() <= Text.WithLines(a.lines + b.lines).Width()
    ensures b.Width() <= Text.WithLines(a.lines + b.lines).Width()
  {
    var c := a.lines + b.lines;
    var w := Text.WithLines(c).Width();
    forall i | 0 <= i < |a.lines| ensures a.lines[i].Width() <= w {
      assert c[i] == a.lines[i];
    }
    forall i | 0 <= i < |b.lines| ensures b.lines[i].Width() <= w {
      assert c[|a.lines| + i] == b.lines[i];
    }
    TextWidthLeast(a, w);
    TextWidthLeast(b, w);
  }

  /** Stacking two texts gives the wider of the two widths. */
  lemma TextWidthAppend(a: Text, b: Text)
    ensures Text.WithLines(a.lines + b.lines).Width() == Max(a.Width(), b.Width())
  {
    StackedWithinWider(a, b);
    StackedNoNarrower(a, b);
  }

  /** Adding a line never narrows a text, and widens it to that line's
      width exactly when the line is wider. */
  lemma TextWidthPush(t: Text, l: Line)
    ensures Text.WithLines(t.lines + [l]).Width() == Max(t.Width(), l.Width())
  {
    TextWidthAppend(t, Text.FromLines([l]));
  }

  // ---------------------------------------------------------------------
  // Scenarios

  /** A span wrapped into a line and the line into a text reads back
      unchanged. */
  lemma SpanThroughText(span: Span)
    ensures Text.FromLines([Line.FromSpan(span)]).lines[0].spans[0] == span
    ensures Text.FromLines([Line.FromSpan(span)]).Width() == span.Width()
  {
    var t := Text.FromLines([Line.FromSpan(span)]);
    assert t.lines[0].Width() == span.Width();
  }

  /** Runs "ab" unstyled and "c" in some other style: width 3, text "abc". */
  lemma TwoSpanLine(bold: Style)
    ensures Line.WithSpans([Span.Raw("ab"), Span.Styled("c", bold)]).Width() == 3
    ensures Line.WithSpans([Span.Raw("ab"), Span.Styled("c", bold)]).ToString() == "abc"
  {
    var x, y := Span.Raw("ab"), Span.Styled("c", bold);
    assert IsPrintableAscii("ab") && IsPrintableAscii("c");
    assert [x, y] == [x] + [y];
    SumWidthsAppend([x], [y]);
    ContentsAppend([x], [y]);
    assert Contents([x]) == "ab" by { assert [x][1..] == []; }
    assert Contents([y]) == "c" by { assert [y][1..] == []; }
  }

  /** "héllo" (with a precomposed e-acute) is five columns wide. */
  lemma AccentedWidth()
    ensures DisplayWidth("héllo") == 5
  {
    assert "héllo" == ['h'] + ['é'] + "llo";
    DisplayWidthConcat(['h'] + ['é'], "llo");
    DisplayWidthConcat(['h'], ['é']);
    assert IsPrintableAscii("llo") && IsPrintableAscii(['h']);
    assert DisplayWidth(['é']) == CharWidth('é') by { assert ['é'][1..] == []; }
  }

  /** Three CJK ideographs are six columns wide. */
  lemma IdeographWidth()
    ensures DisplayWidth("日本語") == 6
  {
    assert "日本語" == ['日'] + ['本'] + ['語'];
    DisplayWidthConcat(['日'] + ['本'], ['語']);
    DisplayWidthConcat(['日'], ['本']);
    assert DisplayWidth(['日']) == CharWidth('日') by { assert ['日'][1..] == []; }
    assert DisplayWidth(['本']) == CharWidth('本') by { assert ['本'][1..] == []; }
    assert DisplayWidth(['語']) == CharWidth('語') by { assert ['語'][1..] == []; }
  }

  /** Three lines of widths 5, 5 and 6 make a text of width 6. */
  lemma WidestOfThree(a: Line, b: Line, c: Line)
    requires a.Width() == 5 && b.Width() == 5 && c.Width() == 6
    ensures Text.WithLines([a, b, c]).Width() == 6
  {
    var t := Text.WithLines([a, b, c]);
    assert t.lines[2] == c;
    TextWidthLeast(t, 6);
  }

  /** Lines "hello", "héllo" and three CJK ideographs measure 5, 5
      and 6; the text measures 6. */
  lemma ThreeLineText()
    ensures Line.FromStr("hello").Width() == 5
    ensures Line.FromStr("héllo").Width() == 5
    ensures Line.FromStr("日本語").Width() == 6
    ensures Text.WithLines([Line.FromStr("hello"), Line.FromStr("héllo"),
                            Line.FromStr("日本語")]).Width() == 6
  {
    assert IsPrintableAscii("hello");
    LineFromStrWidth("hello");
    LineFromStrWidth("héllo");
    LineFromStrWidth("日本語");
    AccentedWidth();
    IdeographWidth();
    WidestOfThree(Line.FromStr("hello"), Line.FromStr("héllo"), Line.FromStr("日本語"));
  }

  /** A multi-line string still becomes one line of one span; the line
      break itself is a control character and takes no columns. */
  lemma NewlineNotSplit()
    ensures Line.FromStr("a\nb").spans == [Span.Raw("a\nb")]
    ensures Line.FromStr("a\nb").Width() == 2
  {
    LineFromStrWidth("a\nb");
    assert "a\nb"[1..] == "\nb";
    assert "\nb"[1..] == "b" && IsPrintableAscii("b");
  }

  /** The empty text is 0 wide, however it is built. */
  lemma EmptyText()
    ensures Text.Default().Width() == 0
    ensures Text.WithLines([]).Width() == 0
    ensures Text.Default() == Text.WithLines([]) == Text.FromLines([])
  {
  }
}

/**
  The render rule table: for each kind of Markdown node, the inline-styled
  markup the editor's overridden renderer methods produce from the node's
  already-rendered content, its attributes and the current settings.
 */
module RenderRules {
  import opened Wrappers
  import opened SettingsModel
  import opened NumberFormat
  import opened Html
  import opened MarkupText

  /**
    A node as the Markdown parser hands it to a rule. Text-like fields hold
    the node's content, already rendered to markup by the parser.
   */
  datatype Node =
    | Heading(level: int, text: string)
    | Paragraph(text: string)
    | Blockquote(quote: string)
    | Code(code: string, language: Option<string>)
    | Codespan(text: string)
    | Strong(text: string)
    | List(body: string, ordered: bool, start: Option<int>)
    | ListItem(text: string)
    | Image(href: string, title: Option<string>, text: string)
    | Hr
    | Link(href: string, title: Option<string>, text: string)

  /** Whether the rule writes a piece of content verbatim into its markup (all but image and rule). */
  predicate HasContent(n: Node)
  {
    !(n.Image? || n.Hr?)
  }

  /** The content a rule writes verbatim. */
  function Content(n: Node): string
  {
    match n
    case Heading(_, text) => text
    case Paragraph(text) => text
    case Blockquote(quote) => quote
    case Code(code, _) => code
    case Codespan(text) => text
    case Strong(text) => text
    case List(body, _, _) => body
    case ListItem(text) => text
    case Image(_, _, _) => ""
    case Hr => ""
    case Link(_, _, text) => text
  }

  /** The same node with its content replaced by `c`. */
  function WithContent(n: Node, c: string): (r: Node)
    ensures HasContent(n) ==> Content(r) == c
  {
    match n
    case Heading(level, _) => Heading(level, c)
    case Paragraph(_) => Paragraph(c)
    case Blockquote(_) => Blockquote(c)
    case Code(_, language) => Code(c, language)
    case Codespan(_) => Codespan(c)
    case Strong(_) => Strong(c)
    case List(_, ordered, start) => List(c, ordered, start)
    case ListItem(_) => ListItem(c)
    case Image(_, _, _) => n
    case Hr => n
    case Link(href, title, _) => Link(href, title, c)
  }

  /** A CSS length in pixels. */
  function Px(x: real): string
  {
    NumStr(x) + "px"
  }

  /** The tag of a list: ordered lists are `ol`, the others `ul`. */
  function ListTag(ordered: bool): string
  {
    if ordered then "ol" else "ul"
  }

  // ---------------------------------------------------------------------------
  // The rules, one per overridden renderer method; each leaves a hole where
  // the content goes.
  // ---------------------------------------------------------------------------

  function HeadingRule(level: int, s: Settings): Html
  {
    var common := [Decl(Prop.FontWeight, "bold"), Decl(Prop.LineHeight, "1.4"), Decl(Prop.Color, s.headingColor)];
    if level == 1 then
      Elem("h1", [], common + [Decl(Prop.Margin, "20px 0 30px"), Decl(Prop.FontSize, Px(s.fontSize * 1.4)),
                               Decl(Prop.TextAlign, "center")], [Hole])
    else if level == 2 then
      Elem("section", [], [Decl(Prop.MarginTop, "40px"), Decl(Prop.MarginBottom, "20px"), Decl(Prop.TextAlign, "center")],
        [Elem("span", [], [Decl(Prop.FontSize, Px(s.fontSize * 1.125)), Decl(Prop.FontWeight, "bold"),
                           Decl(Prop.BorderBottom, "2px solid " + s.headingColor), Decl(Prop.Color, s.headingColor),
                           Decl(Prop.PaddingBottom, "5px"), Decl(Prop.Display, "inline-block")], [Hole])])
    else
      Elem("h3", [], common + [Decl(Prop.Margin, "25px 0 10px"), Decl(Prop.FontSize, Px(s.fontSize)),
                               Decl(Prop.BorderLeft, "4px solid " + s.headingColor), Decl(Prop.PaddingLeft, "10px")], [Hole])
  }

  function ParagraphRule(s: Settings): Html
  {
    Elem("p", [], [Decl(Prop.Margin, "0 0 20px"), Decl(Prop.FontSize, Px(s.fontSize)), Decl(Prop.LineHeight, NumStr(s.lineHeight)),
                   Decl(Prop.TextAlign, "justify"), Decl(Prop.Color, s.textColor), Decl(Prop.LetterSpacing, "0.5px")], [Hole])
  }

  /** The background and the text colour are fixed, not taken from the settings. */
  function BlockquoteRule(s: Settings): Html
  {
    Elem("blockquote", [], [Decl(Prop.Margin, "20px 0"), Decl(Prop.Padding, "15px"), Decl(Prop.Background, "#f9f9f9"),
                            Decl(Prop.BorderLeft, "4px solid " + s.headingColor), Decl(Prop.BorderRadius, "4px"),
                            Decl(Prop.Color, "#555"), Decl(Prop.FontSize, Px(s.fontSize * 0.95)), Decl(Prop.LineHeight, "1.6")], [Hole])
  }

  /** A fenced code block; its language is not used. */
  function CodeRule(s: Settings): Html
  {
    Elem("pre", [], [Decl(Prop.MarginTop, Px(s.codeMarginTop)), Decl(Prop.MarginBottom, Px(s.codeMarginBottom)),
                     Decl(Prop.Padding, "15px"), Decl(Prop.Background, s.codeBg), Decl(Prop.BorderRadius, "6px"),
                     Decl(Prop.FontSize, "14px"), Decl(Prop.LineHeight, "1.5"), Decl(Prop.Color, "#333"),
                     Decl(Prop.OverflowX, "auto"), Decl(Prop.FontFamily, "Consolas, Monaco, 'Andale Mono', monospace"),
                     Decl(Prop.Border, "1px solid #e1e4e8")], [Elem("code", [], [], [Hole])])
  }

  const CodespanRule: Html :=
    Elem("code", [], [Decl(Prop.Background, "#fff5f5"), Decl(Prop.Color, "#ff502c"), Decl(Prop.Padding, "2px 5px"),
                      Decl(Prop.BorderRadius, "3px"), Decl(Prop.FontFamily, "monospace"), Decl(Prop.FontSize, "0.9em"),
                      Decl(Prop.Margin, "0 2px")], [Hole])

  function StrongRule(s: Settings): Html
  {
    Elem("strong", [], [Decl(Prop.Color, s.boldColor), Decl(Prop.FontWeight, "bold")], [Hole])
  }

  /** A list; its start number is not used. */
  function ListRule(ordered: bool, s: Settings): Html
  {
    Elem(ListTag(ordered), [], [Decl(Prop.Margin, "10px 0 20px"), Decl(Prop.PaddingLeft, "25px"), Decl(Prop.FontSize, Px(s.fontSize)),
                                Decl(Prop.Color, s.textColor), Decl(Prop.LineHeight, "1.75")], [Hole])
  }

  const ListItemRule: Html := Elem("li", [], [Decl(Prop.MarginBottom, "5px")], [Hole])

  /** An image: the address and the alternative text become attributes; the title is not used. */
  function ImageRule(href: string, text: string): Html
  {
    Void("img", [Attr("src", href), Attr("alt", text)],
         [Decl(Prop.Display, "block"), Decl(Prop.MaxWidth, "100%"), Decl(Prop.Height, "auto"), Decl(Prop.Margin, "20px auto"),
          Decl(Prop.BorderRadius, "6px"), Decl(Prop.BoxShadow, "0 2px 10px rgba(0,0,0,0.1)")])
  }

  function HrRule(s: Settings): Html
  {
    Void("hr", [], [Decl(Prop.Border, "0"), Decl(Prop.BorderTop, "1px dashed " + s.headingColor), Decl(Prop.Margin, "30px 0"),
                    Decl(Prop.Opacity, "0.6")])
  }

  /** A link; its title is not used. */
  function LinkRule(href: string, s: Settings): Html
  {
    Elem("a", [Attr("href", href)], [Decl(Prop.Color, s.headingColor), Decl(Prop.TextDecoration, "none"),
                                     Decl(Prop.BorderBottom, "1px solid " + s.headingColor), Decl(Prop.WordBreak, "break-all")], [Hole])
  }

  /** The rule table: the markup the rule for `n` builds. */
  function Template(n: Node, s: Settings): Html
  {
    match n
    case Heading(level, _) => HeadingRule(level, s)
    case Paragraph(_) => ParagraphRule(s)
    case Blockquote(_) => BlockquoteRule(s)
    case Code(_, _) => CodeRule(s)
    case Codespan(_) => CodespanRule
    case Strong(_) => StrongRule(s)
    case List(_, ordered, _) => ListRule(ordered, s)
    case ListItem(_) => ListItemRule
    case Image(href, _, text) => ImageRule(href, text)
    case Hr => HrRule(s)
    case Link(href, _, _) => LinkRule(href, s)
  }

  /**
    What the rule for `n` returns under settings `s`: the rule's markup with
    the content written verbatim, once, between markup that the content does
    not change.
   */
  function RenderNode(n: Node, s: Settings): (r: string)
    ensures HasContent(n) ==> r == Pre(Template(n, s)) + Content(n) + Post(Template(n, s))
    ensures !HasContent(n) ==> r == Emit(Template(n, s), "")
  {
    OneHoleEach(n, s);
    if HasContent(n) then
      Plug(Template(n, s), Content(n));
      Emit(Template(n, s), Content(n))
    else
      NoHole(Template(n, s), Content(n));
      Emit(Template(n, s), Content(n))
  }

  /** The settings fields the rule for `n` reads. */
  function Deps(n: Node): set<Field>
  {
    match n
    case Heading(_, _) => {HeadingColor, Field.FontSize}
    case Paragraph(_) => {Field.FontSize, Field.LineHeight, TextColor}
    case Blockquote(_) => {HeadingColor, Field.FontSize}
    case Code(_, _) => {CodeMarginTop, CodeMarginBottom, CodeBg}
    case Codespan(_) => {}
    case Strong(_) => {BoldColor}
    case List(_, _, _) => {Field.FontSize, TextColor}
    case ListItem(_) => {}
    case Image(_, _, _) => {}
    case Hr => {HeadingColor}
    case Link(_, _, _) => {HeadingColor}
  }

  // ---------------------------------------------------------------------------
  // Heading dispatch and list tag.
  // ---------------------------------------------------------------------------

  /**
    Level 1 is a centred `h1` at 1.4 times the font size; level 2 a centred
    `section` around a `span` at 1.125 times the font size underlined in the
    heading colour; every other level an `h3` at the font size with a 4px
    left border in the heading colour.
   */
  lemma HeadingDispatch(level: int, s: Settings)
    ensures var h := HeadingRule(level, s);
      && h.Elem? && Holes(h) == 1
      && (level == 1 ==>
            && h.tag == "h1"
            && Decl(Prop.FontSize, Px(s.fontSize * 1.4)) in h.style
            && Decl(Prop.TextAlign, "center") in h.style
            && Decl(Prop.Color, s.headingColor) in h.style)
      && (level == 2 ==>
            && h.tag == "section"
            && Decl(Prop.TextAlign, "center") in h.style
            && |h.kids| == 1 && h.kids[0].Elem? && h.kids[0].tag == "span"
            && Decl(Prop.FontSize, Px(s.fontSize * 1.125)) in h.kids[0].style
            && Decl(Prop.BorderBottom, "2px solid " + s.headingColor) in h.kids[0].style
            && Decl(Prop.Color, s.headingColor) in h.kids[0].style)
      && (level != 1 && level != 2 ==>
            && h.tag == "h3"
            && Decl(Prop.FontSize, Px(s.fontSize)) in h.style
            && Decl(Prop.BorderLeft, "4px solid " + s.headingColor) in h.style
            && Decl(Prop.Color, s.headingColor) in h.style)
  {
    var h := HeadingRule(level, s);
    if level == 2 {
      var span := h.kids[0];
      assert HolesAll(span.kids) == Holes(Hole) + HolesAll([]);
      assert HolesAll(h.kids) == Holes(span) + HolesAll([]);
    } else {
      assert HolesAll(h.kids) == Holes(Hole) + HolesAll([]);
    }
  }

  /** At the starting settings a level-1 heading is a centred `h1` of 22.4px in the blue heading colour. */
  lemma {:induction false} DefaultTitle()
    ensures var h := HeadingRule(1, Defaults);
      && h.tag == "h1"
      && Decl(Prop.FontSize, "22.4px") in h.style
      && Decl(Prop.Color, "#1e88e5") in h.style
      && Decl(Prop.TextAlign, "center") in h.style
  {
    HeadingDispatch(1, Defaults);
    DefaultHeadingSizes();
    assert Px(16.0 * 1.4) == "22.4" + "px" == "22.4px";
  }

  /** A list opens and closes with `ol` when it is ordered and with `ul` otherwise, whatever its start. */
  lemma {:induction false} ListMarkup(body: string, ordered: bool, start: Option<int>, s: Settings)
    ensures var tag := if ordered then "ol" else "ul";
      RenderNode(List(body, ordered, start), s) ==
        "<" + tag + " style=\"" + StyleText(ListRule(ordered, s).style) + "\">" + body + "</" + tag + ">"
  {
    var h := ListRule(ordered, s);
    EmitSingleHole(h.tag, [], h.style, body);
    StyledOpenTag(h.tag, h.style);
  }

  // ---------------------------------------------------------------------------
  // Content is written verbatim, once, between markup that does not depend on it.
  // ---------------------------------------------------------------------------

  lemma {:induction false} OneHoleEach(n: Node, s: Settings)
    ensures Holes(Template(n, s)) == (if HasContent(n) then 1 else 0)
  {
    var h := Template(n, s);
    match n
    case Heading(level, _) => HeadingDispatch(level, s);
    case Code(_, _) =>
      var code := h.kids[0];
      assert HolesAll(code.kids) == Holes(Hole) + HolesAll([]);
      assert HolesAll(h.kids) == Holes(code) + HolesAll([]);
    case Image(_, _, _) =>
    case Hr =>
    case _ =>
      assert HolesAll(h.kids) == Holes(Hole) + HolesAll([]);
  }

  /**
    Each rule with content writes it verbatim between a prefix and a suffix
    that depend only on the node's other attributes and the settings.
   */
  lemma {:induction false} ContentVerbatim(n: Node, c: string, s: Settings)
    requires HasContent(n)
    ensures Template(WithContent(n, c), s) == Template(n, s)
    ensures RenderNode(WithContent(n, c), s) == Pre(Template(n, s)) + c + Post(Template(n, s))
  {
    OneHoleEach(n, s);
    Plug(Template(n, s), c);
  }

  /** The image and the horizontal rule have no content: their markup comes from attributes and settings alone. */
  lemma {:induction false} NoContent(n: Node, c: string, s: Settings)
    requires !HasContent(n)
    ensures Emit(Template(n, s), c) == RenderNode(n, s)
  {
    OneHoleEach(n, s);
    NoHole(Template(n, s), c);
  }

  /** The image puts the address in `src` and the text in `alt`, in that order, before its fixed style. */
  lemma {:induction false} ImageMarkup(href: string, title: Option<string>, text: string, s: Settings)
    ensures RenderNode(Image(href, title, text), s) ==
      "<img src=\"" + href + "\" alt=\"" + text + "\"" + StyleAttr(ImageRule(href, text).style) + " />"
  {
    var attrs := [Attr("src", href), Attr("alt", text)];
    assert attrs[1..] == [Attr("alt", text)];
    assert attrs[1..][1..] == [];
    assert AttrsText(attrs[1..][1..]) == "";
    assert AttrsText(attrs[1..]) == " " + "alt" + "=\"" + text + "\"" + AttrsText(attrs[1..][1..]);
    SrcAltRegroup(href, text, AttrsText(attrs[1..]), AttrsText(attrs));
  }

  lemma SrcAltRegroup(href: string, text: string, alt: string, both: string)
    requires alt == " " + "alt" + "=\"" + text + "\"" + ""
    requires both == " " + "src" + "=\"" + href + "\"" + alt
    ensures "<" + "img" + both == "<img src=\"" + href + "\" alt=\"" + text + "\""
  {
  }

  /** The arguments the rules ignore: the code language, the list start and the image and link titles. */
  lemma IgnoredArguments(n: Node, m: Node, s: Settings)
    requires || (n.Code? && m.Code? && n.code == m.code)
             || (n.List? && m.List? && n.body == m.body && n.ordered == m.ordered)
             || (n.Image? && m.Image? && n.href == m.href && n.text == m.text)
             || (n.Link? && m.Link? && n.href == m.href && n.text == m.text)
    ensures RenderNode(n, s) == RenderNode(m, s)
  {
  }

  // ---------------------------------------------------------------------------
  // Which settings each rule depends on.
  // ---------------------------------------------------------------------------

  /** Two settings that agree on the fields a rule reads give it the same output. */
  lemma {:induction false} Isolation(n: Node, s: Settings, t: Settings)
    requires Agree(s, t, Deps(n))
    ensures Template(n, s) == Template(n, t)
    ensures RenderNode(n, s) == RenderNode(n, t)
  {
    forall f | f in Deps(n) ensures Get(s, f) == Get(t, f) { }
    match n
    case Heading(level, _) =>
      assert Get(s, HeadingColor) == Get(t, HeadingColor) && Get(s, Field.FontSize) == Get(t, Field.FontSize);
      HeadingIsolation(level, s, t);
    case Paragraph(_) =>
      assert Get(s, Field.FontSize) == Get(t, Field.FontSize) && Get(s, Field.LineHeight) == Get(t, Field.LineHeight);
      assert Get(s, TextColor) == Get(t, TextColor);
      ParagraphIsolation(s, t);
    case Blockquote(_) =>
      assert Get(s, HeadingColor) == Get(t, HeadingColor) && Get(s, Field.FontSize) == Get(t, Field.FontSize);
      BlockquoteIsolation(s, t);
    case Code(_, _) =>
      assert Get(s, CodeMarginTop) == Get(t, CodeMarginTop) && Get(s, CodeMarginBottom) == Get(t, CodeMarginBottom);
      assert Get(s, CodeBg) == Get(t, CodeBg);
      CodeIsolation(s, t);
    case Strong(_) =>
      assert Get(s, BoldColor) == Get(t, BoldColor);
    case List(_, ordered, _) =>
      assert Get(s, Field.FontSize) == Get(t, Field.FontSize) && Get(s, TextColor) == Get(t, TextColor);
      ListIsolation(ordered, s, t);
    case Hr =>
      assert Get(s, HeadingColor) == Get(t, HeadingColor);
    case Link(href, _, _) =>
      assert Get(s, HeadingColor) == Get(t, HeadingColor);
    case _ =>
  }

  lemma HeadingIsolation(level: int, s: Settings, t: Settings)
    requires s.headingColor == t.headingColor && s.fontSize == t.fontSize
    ensures HeadingRule(level, s) == HeadingRule(level, t)
  {
  }

  lemma ParagraphIsolation(s: Settings, t: Settings)
    requires s.fontSize == t.fontSize && s.lineHeight == t.lineHeight && s.textColor == t.textColor
    ensures ParagraphRule(s) == ParagraphRule(t)
  {
  }

  lemma BlockquoteIsolation(s: Settings, t: Settings)
    requires s.headingColor == t.headingColor && s.fontSize == t.fontSize
    ensures BlockquoteRule(s) == BlockquoteRule(t)
  {
  }

  lemma CodeIsolation(s: Settings, t: Settings)
    requires s.codeMarginTop == t.codeMarginTop && s.codeMarginBottom == t.codeMarginBottom && s.codeBg == t.codeBg
    ensures CodeRule(s) == CodeRule(t)
  {
  }

  lemma ListIsolation(ordered: bool, s: Settings, t: Settings)
    requires s.fontSize == t.fontSize && s.textColor == t.textColor
    ensures ListRule(ordered, s) == ListRule(ordered, t)
  {
  }

  /** The colour fields of the settings. */
  const ColorFields: set<Field> := {HeadingColor, BoldColor, TextColor, CodeBg}

  /**
    Every colour a rule reads shows in its printed markup: two configurations
    that differ in that colour and agree on the other fields the rule reads
    make it print different text.
   */
  lemma {:induction false} ColorDepsUsed(n: Node, s: Settings, t: Settings, f: Field)
    requires f in Deps(n) * ColorFields
    requires Agree(s, t, Deps(n) - {f})
    requires Get(s, f) != Get(t, f)
    ensures RenderNode(n, s) != RenderNode(n, t)
  {
    match n
    case Heading(level, text) =>
      assert f == HeadingColor && Get(s, Field.FontSize) == Get(t, Field.FontSize);
      HeadingShowsColor(level, text, s, t);
    case Blockquote(quote) =>
      assert f == HeadingColor && Get(s, Field.FontSize) == Get(t, Field.FontSize);
      BlockquoteShowsColor(quote, s, t);
    case Code(code, _) =>
      assert f == CodeBg && Get(s, CodeMarginTop) == Get(t, CodeMarginTop);
      assert Get(s, CodeMarginBottom) == Get(t, CodeMarginBottom);
      CodeShowsColor(code, s, t);
    case Strong(text) =>
      assert f == BoldColor;
      StrongShowsBoldColor(text, s, t);
    case Paragraph(text) =>
      assert f == TextColor && Get(s, Field.FontSize) == Get(t, Field.FontSize);
      assert Get(s, Field.LineHeight) == Get(t, Field.LineHeight);
      ParagraphShowsColor(text, s, t);
    case List(body, ordered, _) =>
      assert f == TextColor && Get(s, Field.FontSize) == Get(t, Field.FontSize);
      ListShowsColor(body, ordered, s, t);
    case Hr =>
      assert f == HeadingColor;
      HrShowsColor(s, t);
    case Link(href, _, text) =>
      assert f == HeadingColor;
      LinkShowsColor(href, text, s, t);
  }

  /** The heading colour shows once in an `h1`, twice in the `span` of a level-2 heading and twice in an `h3`. */
  lemma {:induction false} HeadingShowsColor(level: int, text: string, s: Settings, t: Settings)
    requires s.headingColor != t.headingColor && s.fontSize == t.fontSize
    ensures RenderNode(Heading(level, text), s) != RenderNode(Heading(level, text), t)
  {
    var a := [Decl(Prop.FontWeight, "bold"), Decl(Prop.LineHeight, "1.4")];
    if level == 1 {
      var b := [Decl(Prop.Margin, "20px 0 30px"), Decl(Prop.FontSize, Px(s.fontSize * 1.4)), Decl(Prop.TextAlign, "center")];
      H1Layout(s, a, b);
      H1Layout(t, a, b);
      ElemShowsValue("h1", [], a, Prop.Color, "", b, [Hole], text, s.headingColor, t.headingColor);
    } else if level == 2 {
      var sa := [Decl(Prop.FontSize, Px(s.fontSize * 1.125)), Decl(Prop.FontWeight, "bold")];
      var se := [Decl(Prop.PaddingBottom, "5px"), Decl(Prop.Display, "inline-block")];
      var outer := [Decl(Prop.MarginTop, "40px"), Decl(Prop.MarginBottom, "20px"), Decl(Prop.TextAlign, "center")];
      var spanS := H2Layout(s, sa, se, outer);
      var spanT := H2Layout(t, sa, se, outer);
      ElemShowsValueTwice("span", [], sa, Prop.BorderBottom, "2px solid ", [], Prop.Color, "", se, [Hole], text,
                          s.headingColor, t.headingColor);
      ElemShowsKid("section", [], outer, spanS, spanT, text);
    } else {
      var b := [Decl(Prop.Margin, "25px 0 10px"), Decl(Prop.FontSize, Px(s.fontSize))];
      var e := [Decl(Prop.PaddingLeft, "10px")];
      H3Layout(level, s, a, b, e);
      H3Layout(level, t, a, b, e);
      ElemShowsValueTwice("h3", [], a, Prop.Color, "", b, Prop.BorderLeft, "4px solid ", e, [Hole], text,
                          s.headingColor, t.headingColor);
    }
  }

  lemma {:induction false} H1Layout(s: Settings, a: seq<Decl>, b: seq<Decl>)
    requires a == [Decl(Prop.FontWeight, "bold"), Decl(Prop.LineHeight, "1.4")]
    requires b == [Decl(Prop.Margin, "20px 0 30px"), Decl(Prop.FontSize, Px(s.fontSize * 1.4)), Decl(Prop.TextAlign, "center")]
    ensures HeadingRule(1, s) == Elem("h1", [], a + [Decl(Prop.Color, "" + s.headingColor)] + b, [Hole])
  {
    assert "" + s.headingColor == s.headingColor;
  }

  lemma {:induction false} H2Layout(s: Settings, sa: seq<Decl>, se: seq<Decl>, outer: seq<Decl>) returns (span: Html)
    requires sa == [Decl(Prop.FontSize, Px(s.fontSize * 1.125)), Decl(Prop.FontWeight, "bold")]
    requires se == [Decl(Prop.PaddingBottom, "5px"), Decl(Prop.Display, "inline-block")]
    requires outer == [Decl(Prop.MarginTop, "40px"), Decl(Prop.MarginBottom, "20px"), Decl(Prop.TextAlign, "center")]
    ensures span == Elem("span", [], sa + [Decl(Prop.BorderBottom, "2px solid " + s.headingColor)] + [] +
                                     [Decl(Prop.Color, "" + s.headingColor)] + se, [Hole])
    ensures HeadingRule(2, s) == Elem("section", [], outer, [span])
  {
    assert "" + s.headingColor == s.headingColor;
    span := Elem("span", [], sa + [Decl(Prop.BorderBottom, "2px solid " + s.headingColor)] + [] +
                             [Decl(Prop.Color, "" + s.headingColor)] + se, [Hole]);
    assert span.style == HeadingRule(2, s).kids[0].style;
  }

  lemma {:induction false} H3Layout(level: int, s: Settings, a: seq<Decl>, b: seq<Decl>, e: seq<Decl>)
    requires level != 1 && level != 2
    requires a == [Decl(Prop.FontWeight, "bold"), Decl(Prop.LineHeight, "1.4")]
    requires b == [Decl(Prop.Margin, "25px 0 10px"), Decl(Prop.FontSize, Px(s.fontSize))]
    requires e == [Decl(Prop.PaddingLeft, "10px")]
    ensures HeadingRule(level, s) ==
      Elem("h3", [], a + [Decl(Prop.Color, "" + s.headingColor)] + b + [Decl(Prop.BorderLeft, "4px solid " + s.headingColor)] + e, [Hole])
  {
    assert "" + s.headingColor == s.headingColor;
  }

  lemma {:induction false} BlockquoteShowsColor(quote: string, s: Settings, t: Settings)
    requires s.headingColor != t.headingColor && s.fontSize == t.fontSize
    ensures RenderNode(Blockquote(quote), s) != RenderNode(Blockquote(quote), t)
  {
    var a := [Decl(Prop.Margin, "20px 0"), Decl(Prop.Padding, "15px"), Decl(Prop.Background, "#f9f9f9")];
    var b := [Decl(Prop.BorderRadius, "4px"), Decl(Prop.Color, "#555"), Decl(Prop.FontSize, Px(s.fontSize * 0.95)),
              Decl(Prop.LineHeight, "1.6")];
    assert BlockquoteRule(s) == Elem("blockquote", [], a + [Decl(Prop.BorderLeft, "4px solid " + s.headingColor)] + b, [Hole]);
    assert BlockquoteRule(t) == Elem("blockquote", [], a + [Decl(Prop.BorderLeft, "4px solid " + t.headingColor)] + b, [Hole]);
    ElemShowsValue("blockquote", [], a, Prop.BorderLeft, "4px solid ", b, [Hole], quote, s.headingColor, t.headingColor);
  }

  lemma {:induction false} HrShowsColor(s: Settings, t: Settings)
    requires s.headingColor != t.headingColor
    ensures RenderNode(Hr, s) != RenderNode(Hr, t)
  {
    var a := [Decl(Prop.Border, "0")];
    var b := [Decl(Prop.Margin, "30px 0"), Decl(Prop.Opacity, "0.6")];
    assert HrRule(s) == Void("hr", [], a + [Decl(Prop.BorderTop, "1px dashed " + s.headingColor)] + b);
    assert HrRule(t) == Void("hr", [], a + [Decl(Prop.BorderTop, "1px dashed " + t.headingColor)] + b);
    VoidShowsValue("hr", [], a, Prop.BorderTop, "1px dashed ", b, s.headingColor, t.headingColor);
  }

  lemma {:induction false} CodeShowsColor(code: string, s: Settings, t: Settings)
    requires s.codeBg != t.codeBg && s.codeMarginTop == t.codeMarginTop && s.codeMarginBottom == t.codeMarginBottom
    ensures forall language :: RenderNode(Code(code, language), s) != RenderNode(Code(code, language), t)
  {
    var a := [Decl(Prop.MarginTop, Px(s.codeMarginTop)), Decl(Prop.MarginBottom, Px(s.codeMarginBottom)), Decl(Prop.Padding, "15px")];
    var b := [Decl(Prop.BorderRadius, "6px"), Decl(Prop.FontSize, "14px"), Decl(Prop.LineHeight, "1.5"), Decl(Prop.Color, "#333"),
              Decl(Prop.OverflowX, "auto"), Decl(Prop.FontFamily, "Consolas, Monaco, 'Andale Mono', monospace"),
              Decl(Prop.Border, "1px solid #e1e4e8")];
    var kids := [Elem("code", [], [], [Hole])];
    CodeLayout(s, a, b, kids);
    CodeLayout(t, a, b, kids);
    ElemShowsValue("pre", [], a, Prop.Background, "", b, kids, code, s.codeBg, t.codeBg);
  }

  lemma {:induction false} CodeLayout(s: Settings, a: seq<Decl>, b: seq<Decl>, kids: seq<Html>)
    requires a == [Decl(Prop.MarginTop, Px(s.codeMarginTop)), Decl(Prop.MarginBottom, Px(s.codeMarginBottom)), Decl(Prop.Padding, "15px")]
    requires b == [Decl(Prop.BorderRadius, "6px"), Decl(Prop.FontSize, "14px"), Decl(Prop.LineHeight, "1.5"), Decl(Prop.Color, "#333"),
                   Decl(Prop.OverflowX, "auto"), Decl(Prop.FontFamily, "Consolas, Monaco, 'Andale Mono', monospace"),
                   Decl(Prop.Border, "1px solid #e1e4e8")]
    requires kids == [Elem("code", [], [], [Hole])]
    ensures CodeRule(s) == Elem("pre", [], a + [Decl(Prop.Background, "" + s.codeBg)] + b, kids)
  {
    assert "" + s.codeBg == s.codeBg;
  }

  lemma {:induction false} ParagraphShowsColor(text: string, s: Settings, t: Settings)
    requires s.textColor != t.textColor && s.fontSize == t.fontSize && s.lineHeight == t.lineHeight
    ensures RenderNode(Paragraph(text), s) != RenderNode(Paragraph(text), t)
  {
    var a := [Decl(Prop.Margin, "0 0 20px"), Decl(Prop.FontSize, Px(s.fontSize)), Decl(Prop.LineHeight, NumStr(s.lineHeight)),
              Decl(Prop.TextAlign, "justify")];
    var b := [Decl(Prop.LetterSpacing, "0.5px")];
    assert "" + s.textColor == s.textColor && "" + t.textColor == t.textColor;
    assert ParagraphRule(s) == Elem("p", [], a + [Decl(Prop.Color, "" + s.textColor)] + b, [Hole]);
    assert ParagraphRule(t) == Elem("p", [], a + [Decl(Prop.Color, "" + t.textColor)] + b, [Hole]);
    ElemShowsValue("p", [], a, Prop.Color, "", b, [Hole], text, s.textColor, t.textColor);
  }

  lemma {:induction false} ListShowsColor(body: string, ordered: bool, s: Settings, t: Settings)
    requires s.textColor != t.textColor && s.fontSize == t.fontSize
    ensures forall start :: RenderNode(List(body, ordered, start), s) != RenderNode(List(body, ordered, start), t)
  {
    var a := [Decl(Prop.Margin, "10px 0 20px"), Decl(Prop.PaddingLeft, "25px"), Decl(Prop.FontSize, Px(s.fontSize))];
    var b := [Decl(Prop.LineHeight, "1.75")];
    var tag := ListTag(ordered);
    assert "" + s.textColor == s.textColor && "" + t.textColor == t.textColor;
    assert ListRule(ordered, s) == Elem(tag, [], a + [Decl(Prop.Color, "" + s.textColor)] + b, [Hole]);
    assert ListRule(ordered, t) == Elem(tag, [], a + [Decl(Prop.Color, "" + t.textColor)] + b, [Hole]);
    ElemShowsValue(tag, [], a, Prop.Color, "", b, [Hole], body, s.textColor, t.textColor);
  }

  lemma {:induction false} LinkShowsColor(href: string, text: string, s: Settings, t: Settings)
    requires s.headingColor != t.headingColor
    ensures forall title :: RenderNode(Link(href, title, text), s) != RenderNode(Link(href, title, text), t)
  {
    var attrs := [Attr("href", href)];
    var b := [Decl(Prop.TextDecoration, "none")];
    var e := [Decl(Prop.WordBreak, "break-all")];
    var hs, ht := s.headingColor, t.headingColor;
    assert "" + hs == hs && "" + ht == ht;
    assert LinkRule(href, s) == Elem("a", attrs, [] + [Decl(Prop.Color, "" + hs)] + b + [Decl(Prop.BorderBottom, "1px solid " + hs)] + e, [Hole]);
    assert LinkRule(href, t) == Elem("a", attrs, [] + [Decl(Prop.Color, "" + ht)] + b + [Decl(Prop.BorderBottom, "1px solid " + ht)] + e, [Hole]);
    ElemShowsValueTwice("a", attrs, [], Prop.Color, "", b, Prop.BorderBottom, "1px solid ", e, [Hole], text, hs, ht);
  }

  /** What the bold rule writes, character for character. */
  lemma {:induction false} StrongMarkup(text: string, s: Settings)
    ensures RenderNode(Strong(text), s) ==
      "<strong style=\"color: " + s.boldColor + "; font-weight: bold;\">" + text + "</strong>"
  {
    var ds := StrongRule(s).style;
    EmitSingleHole("strong", [], ds, text);
    StyledOpenTag("strong", ds);
    assert ds[1..] == [Decl(Prop.FontWeight, "bold")];
    StrongRegroup(s.boldColor, StyleText(ds));
  }

  lemma StrongRegroup(c: string, st: string)
    requires st == ("color" + ": " + c + ";") + " " + ("font-weight" + ": " + "bold" + ";")
    ensures "<" + "strong" + " style=\"" + st + "\">" == "<strong style=\"color: " + c + "; font-weight: bold;\">"
  {
  }

  lemma Regroup(a: string, b: string, c: string, d: string, e: string)
    ensures a + b + c + d + e == a + b + (c + d + e)
  {
  }

  /** Bold text of a different colour renders differently: the bold colour is visible in the output. */
  lemma {:induction false} StrongShowsBoldColor(text: string, s: Settings, t: Settings)
    requires s.boldColor != t.boldColor
    ensures RenderNode(Strong(text), s) != RenderNode(Strong(text), t)
  {
    StrongMarkup(text, s);
    StrongMarkup(text, t);
    var p, b, e := "<strong style=\"color: ", "; font-weight: bold;\">", "</strong>";
    Regroup(p, s.boldColor, b, text, e);
    Regroup(p, t.boldColor, b, text, e);
    var q := b + text + e;
    if RenderNode(Strong(text), s) == RenderNode(Strong(text), t) {
      CancelAround(p, s.boldColor, t.boldColor, q);
    }
  }

  // ---------------------------------------------------------------------------
  // Documents: the parser renders children before their parent and hands the
  // parent their concatenation as its content.
  // ---------------------------------------------------------------------------

  /** A parsed document node: plain text, a node whose content is already known, or a node over children. */
  datatype Doc =
    | Raw(text: string)
    | Leaf(node: Node)
    | Parent(node: Node, kids: seq<Doc>)

  function RenderDoc(d: Doc, s: Settings): string
    decreases d, 1
  {
    match d
    case Raw(text) => text
    case Leaf(n) => RenderNode(n, s)
    case Parent(n, kids) => RenderNode(WithContent(n, RenderDocs(kids, s)), s)
  }

  /** Sibling documents render one after the other, with nothing in between. */
  function RenderDocs(ds: seq<Doc>, s: Settings): string
    decreases ds, 0
  {
    if ds == [] then "" else RenderDoc(ds[0], s) + RenderDocs(ds[1..], s)
  }

  /** Rendering a sequence of siblings is rendering each part and joining the texts. */
  lemma {:induction false} RenderDocsAppend(a: seq<Doc>, b: seq<Doc>, s: Settings)
    ensures RenderDocs(a + b, s) == RenderDocs(a, s) + RenderDocs(b, s)
    decreases |a|
  {
    if a == [] {
      assert a + b == b;
    } else {
      assert (a + b)[0] == a[0];
      assert (a + b)[1..] == a[1..] + b;
      RenderDocsAppend(a[1..], b, s);
    }
  }

  /** A single document renders as itself. */
  lemma {:induction false} RenderDocsSingle(d: Doc, s: Settings)
    ensures RenderDocs([d], s) == RenderDoc(d, s)
  {
    assert [d][1..] == [];
  }

  /** The settings fields some rule in the document reads. */
  function DocDeps(d: Doc): set<Field>
    decreases d, 1
  {
    match d
    case Raw(_) => {}
    case Leaf(n) => Deps(n)
    case Parent(n, kids) => Deps(n) + DocsDeps(kids)
  }

  function DocsDeps(ds: seq<Doc>): set<Field>
    decreases ds, 0
  {
    if ds == [] then {} else DocDeps(ds[0]) + DocsDeps(ds[1..])
  }

  /** Whether the document holds bold text anywhere. */
  predicate HasStrong(d: Doc)
    decreases d, 1
  {
    match d
    case Raw(_) => false
    case Leaf(n) => n.Strong?
    case Parent(n, kids) => n.Strong? || AnyStrong(kids)
  }

  predicate AnyStrong(ds: seq<Doc>)
    decreases ds, 0
  {
    ds != [] && (HasStrong(ds[0]) || AnyStrong(ds[1..]))
  }

  /** A whole document renders the same under two settings that agree on every field its rules read. */
  lemma {:induction false} DocIsolation(d: Doc, s: Settings, t: Settings)
    requires Agree(s, t, DocDeps(d))
    ensures RenderDoc(d, s) == RenderDoc(d, t)
    decreases d, 1
  {
    match d
    case Raw(_) =>
    case Leaf(n) => Isolation(n, s, t);
    case Parent(n, kids) =>
      DocsIsolation(kids, s, t);
      ParentIsolation(n, RenderDocs(kids, s), s, t);
  }

  lemma {:induction false} ParentIsolation(n: Node, content: string, s: Settings, t: Settings)
    requires Agree(s, t, Deps(n))
    ensures RenderNode(WithContent(n, content), s) == RenderNode(WithContent(n, content), t)
  {
    Isolation(WithContent(n, content), s, t);
  }

  lemma {:induction false} DocsIsolation(ds: seq<Doc>, s: Settings, t: Settings)
    requires Agree(s, t, DocsDeps(ds))
    ensures RenderDocs(ds, s) == RenderDocs(ds, t)
    decreases ds, 0
  {
    if ds != [] {
      DocIsolation(ds[0], s, t);
      DocsIsolation(ds[1..], s, t);
    }
  }

  /** Only bold text reads the bold colour. */
  lemma {:induction false} BoldColorMeansStrong(d: Doc)
    ensures BoldColor in DocDeps(d) <==> HasStrong(d)
    decreases d, 1
  {
    match d
    case Raw(_) =>
    case Leaf(n) =>
    case Parent(n, kids) => BoldColorMeansStrongAll(kids);
  }

  lemma {:induction false} BoldColorMeansStrongAll(ds: seq<Doc>)
    ensures BoldColor in DocsDeps(ds) <==> AnyStrong(ds)
    decreases ds, 0
  {
    if ds != [] {
      BoldColorMeansStrong(ds[0]);
      BoldColorMeansStrongAll(ds[1..]);
    }
  }

  /** Changing the bold colour leaves a document without bold text exactly as it was. */
  lemma {:induction false} BoldColorOnlyReachesStrong(ds: seq<Doc>, s: Settings, c: string)
    requires !AnyStrong(ds)
    ensures RenderDocs(ds, ApplyEdit(s, SetBoldColor(c))) == RenderDocs(ds, s)
  {
    BoldColorMeansStrongAll(ds);
    DocsIsolation(ds, ApplyEdit(s, SetBoldColor(c)), s);
  }
}

/**
  The stylesheet exporter: the same settings projected onto selector-scoped
  CSS for a notes application's preview pane, every declaration marked
  `!important`. Each block is a list of declarations, so that it can be
  compared with the inline declarations the render rules write.
 */
module Stylesheet {
  import opened Wrappers
  import opened SettingsModel
  import opened NumberFormat
  import opened Html
  import R = RenderRules

  /** The blocks of the stylesheet, in the order they are written. */
  datatype Selector = Root | H1 | H2 | H3 | Para | Bold | Quote | Pre

  const Order: seq<Selector> := [Root, H1, H2, H3, Para, Bold, Quote, Pre]

  /** The class of the notes application's preview pane, which scopes every block. */
  const Scope := ".markdown-preview-view"

  function SelectorText(k: Selector): string
  {
    match k
    case Root => Scope
    case H1 => Scope + " h1"
    case H2 => Scope + " h2"
    case H3 => Scope + " h3"
    case Para => Scope + " p"
    case Bold => Scope + " strong"
    case Quote => Scope + " blockquote"
    case Pre => Scope + " pre"
  }

  /** The declarations of each block. */
  function Block(k: Selector, s: Settings): seq<Decl>
  {
    match k
    case Root =>
      [Decl(Prop.FontFamily, "-apple-system, BlinkMacSystemFont, \"Segoe UI\", Roboto, Helvetica, Arial, sans-serif"),
       Decl(Prop.FontSize, R.Px(s.fontSize)), Decl(Prop.LineHeight, NumStr(s.lineHeight)), Decl(Prop.Color, s.textColor)]
    case H1 =>
      [Decl(Prop.TextAlign, "center"), Decl(Prop.FontSize, R.Px(s.fontSize * 1.4)), Decl(Prop.Color, s.headingColor),
       Decl(Prop.Margin, "20px 0 30px")]
    case H2 =>
      [Decl(Prop.TextAlign, "center"), Decl(Prop.BorderBottom, "2px solid " + s.headingColor), Decl(Prop.Color, s.headingColor),
       Decl(Prop.FontSize, R.Px(s.fontSize * 1.125)), Decl(Prop.MarginTop, "40px"), Decl(Prop.MarginBottom, "20px"),
       Decl(Prop.Display, "inline-block")]
    case H3 =>
      [Decl(Prop.BorderLeft, "4px solid " + s.headingColor), Decl(Prop.PaddingLeft, "10px"), Decl(Prop.Color, s.headingColor),
       Decl(Prop.FontSize, R.Px(s.fontSize)), Decl(Prop.Margin, "25px 0 10px")]
    case Para =>
      [Decl(Prop.TextAlign, "justify"), Decl(Prop.MarginBottom, "20px")]
    case Bold =>
      [Decl(Prop.Color, s.boldColor)]
    case Quote =>
      [Decl(Prop.BorderLeftColor, s.headingColor), Decl(Prop.BackgroundColor, "#f9f9f9")]
    case Pre =>
      [Decl(Prop.BackgroundColor, s.codeBg), Decl(Prop.MarginTop, R.Px(s.codeMarginTop)),
       Decl(Prop.MarginBottom, R.Px(s.codeMarginBottom)), Decl(Prop.Padding, "15px"), Decl(Prop.BorderRadius, "6px")]
  }

  /** One declaration per line, indented by two spaces. */
  function DeclLines(ds: seq<Decl>): string
  {
    if ds == [] then "" else "  " + PropName(ds[0].prop) + ": " + ds[0].value + " !important;\n" + DeclLines(ds[1..])
  }

  function BlockText(k: Selector, s: Settings): string
  {
    SelectorText(k) + " {\n" + DeclLines(Block(k, s)) + "}\n"
  }

  /** Texts separated by blank lines (each block already ends with a line break). */
  function Joined(texts: seq<string>): string
  {
    if texts == [] then ""
    else if |texts| == 1 then texts[0]
    else texts[0] + "\n" + Joined(texts[1..])
  }

  /** Where a selector's block comes in the stylesheet. */
  function Position(k: Selector): (i: nat)
    ensures i < |Order| && Order[i] == k
  {
    match k
    case Root => 0
    case H1 => 1
    case H2 => 2
    case H3 => 3
    case Para => 4
    case Bold => 5
    case Quote => 6
    case Pre => 7
  }

  /** The comment that tells the reader where to save the file and how to turn it on. */
  const Header := "/* 将以下代码保存为 obsidian-wechat.css 并放入 .obsidian/snippets 文件夹中，然后在外观设置中启用 */"

  /**
    The exported stylesheet: the header comment, a blank line, then the
    block of each selector in `Order`, one after the other.
   */
  function ObsidianCss(s: Settings): (r: string)
    ensures |Header| <= |r| && r[..|Header|] == Header
  {
    var blocks := Joined(seq(|Order|, i requires 0 <= i < |Order| => BlockText(Order[i], s)));
    HeaderFirst(Header, blocks);
    Header + "\n\n" + blocks
  }

  lemma {:induction false} HeaderFirst(h: string, blocks: string)
    ensures (h + "\n\n" + blocks)[..|h|] == h
  {
    assert h + "\n\n" + blocks == h + ("\n\n" + blocks);
  }

  /** The stylesheet writes the block of every selector. */
  lemma {:induction false} EveryBlockWritten(k: Selector, s: Settings)
    ensures Contains(ObsidianCss(s), BlockText(k, s))
  {
    var texts := seq(|Order|, i requires 0 <= i < |Order| => BlockText(Order[i], s));
    var i := Position(k);
    var p, q := JoinedHas(texts, i);
    Framed(Header, p, texts[i], q);
  }

  lemma {:induction false} Framed(h: string, p: string, t: string, q: string)
    ensures Contains(h + "\n\n" + (p + t + q), t)
  {
    assert h + "\n\n" + (p + t + q) == (h + "\n\n" + p) + t + q;
    ContainsMiddle(h + "\n\n" + p, t, q);
  }

  /** Every text appears whole in the joined text. */
  lemma {:induction false} JoinedHas(texts: seq<string>, i: nat) returns (p: string, q: string)
    requires i < |texts|
    ensures Joined(texts) == p + texts[i] + q
    decreases |texts|
  {
    if |texts| == 1 {
      p, q := "", "";
    } else if i == 0 {
      p, q := "", "\n" + Joined(texts[1..]);
    } else {
      var p', q' := JoinedHas(texts[1..], i - 1);
      p, q := texts[0] + "\n" + p', q';
    }
  }

  // ---------------------------------------------------------------------------
  // Parity with the inline rules.
  // ---------------------------------------------------------------------------

  /**
    The node whose inline rule a block stands for. The whole pane's block
    stands for body text, which the paragraph rule styles.
   */
  function Counterpart(k: Selector): R.Node
  {
    match k
    case Root => R.Paragraph("")
    case H1 => R.Heading(1, "")
    case H2 => R.Heading(2, "")
    case H3 => R.Heading(3, "")
    case Para => R.Paragraph("")
    case Bold => R.Strong("")
    case Quote => R.Blockquote("")
    case Pre => R.Code("", None)
  }

  /** The inline declarations of the counterpart's markup (for level 2, the section's and then the span's). */
  function InlineStyles(k: Selector, s: Settings): seq<Decl>
  {
    match k
    case Root => R.ParagraphRule(s).style
    case H1 => R.HeadingRule(1, s).style
    case H2 => var h := R.HeadingRule(2, s); h.style + h.kids[0].style
    case H3 => R.HeadingRule(3, s).style
    case Para => R.ParagraphRule(s).style
    case Bold => R.StrongRule(s).style
    case Quote => R.BlockquoteRule(s).style
    case Pre => R.CodeRule(s).style
  }

  /** They are every declaration in the counterpart's markup, outermost element first. */
  lemma {:induction false} InlineStylesOf(k: Selector, s: Settings)
    ensures InlineStyles(k, s) == Styles(R.Template(Counterpart(k), s))
  {
    var h := R.Template(Counterpart(k), s);
    assert StylesAll([]) == [];
    if k == H2 || k == Pre {
      var inner := h.kids[0];
      assert StylesAll(inner.kids) == Styles(Hole) + StylesAll([]);
      assert StylesAll(h.kids) == Styles(inner) + StylesAll([]);
    } else {
      assert StylesAll(h.kids) == Styles(Hole) + StylesAll([]);
    }
  }

  /** No property set by both `ds` and `es` gets two different values. */
  predicate Consistent(ds: seq<Decl>, es: seq<Decl>)
  {
    forall i, j :: 0 <= i < |ds| && 0 <= j < |es| && ds[i].prop == es[j].prop ==> ds[i].value == es[j].value
  }

  /**
    `d` is among `es`, or `es` sets it through the shorthand the inline rules
    use in its place: `background` for `background-color`, a 4px solid
    `border-left` for `border-left-color`, and `margin: 0 0 x` for
    `margin-bottom: x`.
   */
  predicate Implied(d: Decl, es: seq<Decl>)
  {
    || d in es
    || (d.prop == Prop.BackgroundColor && Decl(Prop.Background, d.value) in es)
    || (d.prop == Prop.BorderLeftColor && Decl(Prop.BorderLeft, "4px solid " + d.value) in es)
    || (d.prop == Prop.MarginBottom && Decl(Prop.Margin, "0 0 " + d.value) in es)
  }

  /** Every declaration of `ds` is implied by `es`. */
  predicate Covers(ds: seq<Decl>, es: seq<Decl>)
  {
    forall i :: 0 <= i < |ds| ==> Implied(ds[i], es)
  }

  /**
    The exported stylesheet matches the inline rules, for every settings
    value: whenever a block and its counterpart's inline style set the same
    property they set it to the same value, and every declaration of the
    block is also made inline, directly or through a shorthand. The one
    exception is the font family of the whole pane, which no inline rule of
    a paragraph sets.
   */
  lemma {:induction false} Parity(k: Selector, s: Settings)
    ensures Consistent(Block(k, s), InlineStyles(k, s))
    ensures Covers(if k == Root then Block(k, s)[1..] else Block(k, s), InlineStyles(k, s))
  {
    match k
    case Root => ParityRoot(s);
    case H1 => ParityH1(s);
    case H2 => ParityH2(s);
    case H3 => ParityH3(s);
    case Para => ParityPara(s);
    case Bold => ParityBold(s);
    case Quote => ParityQuote(s);
    case Pre => ParityPre(s);
  }

  /** The whole pane's block holds the body text settings of the paragraph rule. */
  lemma {:induction false} ParityRoot(s: Settings)
    ensures Consistent(Block(Root, s), InlineStyles(Root, s))
    ensures Covers(Block(Root, s)[1..], InlineStyles(Root, s))
  {
    RootLists(Block(Root, s), InlineStyles(Root, s), R.Px(s.fontSize), NumStr(s.lineHeight), s.textColor);
  }

  lemma RootLists(block: seq<Decl>, inline: seq<Decl>, size: string, height: string, color: string)
    requires block ==
      [Decl(Prop.FontFamily, "-apple-system, BlinkMacSystemFont, \"Segoe UI\", Roboto, Helvetica, Arial, sans-serif"),
       Decl(Prop.FontSize, size), Decl(Prop.LineHeight, height), Decl(Prop.Color, color)]
    requires inline ==
      [Decl(Prop.Margin, "0 0 20px"), Decl(Prop.FontSize, size), Decl(Prop.LineHeight, height),
       Decl(Prop.TextAlign, "justify"), Decl(Prop.Color, color), Decl(Prop.LetterSpacing, "0.5px")]
    ensures Consistent(block, inline) && Covers(block[1..], inline)
  {
  }

  lemma {:induction false} ParityH1(s: Settings)
    ensures Consistent(Block(H1, s), InlineStyles(H1, s))
    ensures Covers(Block(H1, s), InlineStyles(H1, s))
  {
    H1Lists(Block(H1, s), InlineStyles(H1, s), s.headingColor, R.Px(s.fontSize * 1.4));
  }

  lemma H1Lists(block: seq<Decl>, inline: seq<Decl>, color: string, size: string)
    requires block ==
      [Decl(Prop.TextAlign, "center"), Decl(Prop.FontSize, size), Decl(Prop.Color, color), Decl(Prop.Margin, "20px 0 30px")]
    requires inline ==
      [Decl(Prop.FontWeight, "bold"), Decl(Prop.LineHeight, "1.4"), Decl(Prop.Color, color)] +
      [Decl(Prop.Margin, "20px 0 30px"), Decl(Prop.FontSize, size), Decl(Prop.TextAlign, "center")]
    ensures Consistent(block, inline) && Covers(block, inline)
  {
    assert inline ==
      [Decl(Prop.FontWeight, "bold"), Decl(Prop.LineHeight, "1.4"), Decl(Prop.Color, color), Decl(Prop.Margin, "20px 0 30px"),
       Decl(Prop.FontSize, size), Decl(Prop.TextAlign, "center")];
  }

  lemma {:induction false} ParityH2(s: Settings)
    ensures Consistent(Block(H2, s), InlineStyles(H2, s))
    ensures Covers(Block(H2, s), InlineStyles(H2, s))
  {
    H2Lists(Block(H2, s), InlineStyles(H2, s), s.headingColor, "2px solid " + s.headingColor, R.Px(s.fontSize * 1.125));
  }

  lemma H2Lists(block: seq<Decl>, inline: seq<Decl>, color: string, border: string, size: string)
    requires block ==
      [Decl(Prop.TextAlign, "center"), Decl(Prop.BorderBottom, border), Decl(Prop.Color, color),
       Decl(Prop.FontSize, size), Decl(Prop.MarginTop, "40px"), Decl(Prop.MarginBottom, "20px"),
       Decl(Prop.Display, "inline-block")]
    requires inline ==
      [Decl(Prop.MarginTop, "40px"), Decl(Prop.MarginBottom, "20px"), Decl(Prop.TextAlign, "center")] +
      [Decl(Prop.FontSize, size), Decl(Prop.FontWeight, "bold"), Decl(Prop.BorderBottom, border),
       Decl(Prop.Color, color), Decl(Prop.PaddingBottom, "5px"), Decl(Prop.Display, "inline-block")]
    ensures Consistent(block, inline) && Covers(block, inline)
  {
    assert inline ==
      [Decl(Prop.MarginTop, "40px"), Decl(Prop.MarginBottom, "20px"), Decl(Prop.TextAlign, "center"),
       Decl(Prop.FontSize, size), Decl(Prop.FontWeight, "bold"), Decl(Prop.BorderBottom, border),
       Decl(Prop.Color, color), Decl(Prop.PaddingBottom, "5px"), Decl(Prop.Display, "inline-block")];
  }

  lemma {:induction false} ParityH3(s: Settings)
    ensures Consistent(Block(H3, s), InlineStyles(H3, s))
    ensures Covers(Block(H3, s), InlineStyles(H3, s))
  {
    H3Lists(Block(H3, s), InlineStyles(H3, s), s.headingColor, "4px solid " + s.headingColor, R.Px(s.fontSize));
  }

  lemma H3Lists(block: seq<Decl>, inline: seq<Decl>, color: string, border: string, size: string)
    requires block ==
      [Decl(Prop.BorderLeft, border), Decl(Prop.PaddingLeft, "10px"), Decl(Prop.Color, color),
       Decl(Prop.FontSize, size), Decl(Prop.Margin, "25px 0 10px")]
    requires inline ==
      [Decl(Prop.FontWeight, "bold"), Decl(Prop.LineHeight, "1.4"), Decl(Prop.Color, color)] +
      [Decl(Prop.Margin, "25px 0 10px"), Decl(Prop.FontSize, size), Decl(Prop.BorderLeft, border), Decl(Prop.PaddingLeft, "10px")]
    ensures Consistent(block, inline) && Covers(block, inline)
  {
    assert inline ==
      [Decl(Prop.FontWeight, "bold"), Decl(Prop.LineHeight, "1.4"), Decl(Prop.Color, color), Decl(Prop.Margin, "25px 0 10px"),
       Decl(Prop.FontSize, size), Decl(Prop.BorderLeft, border), Decl(Prop.PaddingLeft, "10px")];
  }

  lemma {:induction false} ParityPara(s: Settings)
    ensures Consistent(Block(Para, s), InlineStyles(Para, s))
    ensures Covers(Block(Para, s), InlineStyles(Para, s))
  {
    ParagraphLists(Block(Para, s), InlineStyles(Para, s), R.Px(s.fontSize), NumStr(s.lineHeight), s.textColor);
  }

  lemma ParagraphLists(block: seq<Decl>, inline: seq<Decl>, size: string, height: string, color: string)
    requires block ==
      [Decl(Prop.TextAlign, "justify"), Decl(Prop.MarginBottom, "20px")]
    requires inline ==
      [Decl(Prop.Margin, "0 0 20px"), Decl(Prop.FontSize, size), Decl(Prop.LineHeight, height),
       Decl(Prop.TextAlign, "justify"), Decl(Prop.Color, color), Decl(Prop.LetterSpacing, "0.5px")]
    ensures Consistent(block, inline) && Covers(block, inline)
  {
    assert "0 0 " + "20px" == "0 0 20px";
  }

  lemma {:induction false} ParityBold(s: Settings)
    ensures Consistent(Block(Bold, s), InlineStyles(Bold, s))
    ensures Covers(Block(Bold, s), InlineStyles(Bold, s))
  {
  }

  lemma {:induction false} ParityQuote(s: Settings)
    ensures Consistent(Block(Quote, s), InlineStyles(Quote, s))
    ensures Covers(Block(Quote, s), InlineStyles(Quote, s))
  {
    QuoteLists(Block(Quote, s), InlineStyles(Quote, s), s.headingColor, R.Px(s.fontSize * 0.95));
  }

  lemma QuoteLists(block: seq<Decl>, inline: seq<Decl>, color: string, size: string)
    requires block ==
      [Decl(Prop.BorderLeftColor, color), Decl(Prop.BackgroundColor, "#f9f9f9")]
    requires inline ==
      [Decl(Prop.Margin, "20px 0"), Decl(Prop.Padding, "15px"), Decl(Prop.Background, "#f9f9f9"),
       Decl(Prop.BorderLeft, "4px solid " + color), Decl(Prop.BorderRadius, "4px"),
       Decl(Prop.Color, "#555"), Decl(Prop.FontSize, size), Decl(Prop.LineHeight, "1.6")]
    ensures Consistent(block, inline) && Covers(block, inline)
  {
  }

  lemma {:induction false} ParityPre(s: Settings)
    ensures Consistent(Block(Pre, s), InlineStyles(Pre, s))
    ensures Covers(Block(Pre, s), InlineStyles(Pre, s))
  {
    CodeBlockLists(Block(Pre, s), InlineStyles(Pre, s), s.codeBg, R.Px(s.codeMarginTop), R.Px(s.codeMarginBottom));
  }

  lemma CodeBlockLists(block: seq<Decl>, inline: seq<Decl>, bg: string, top: string, bottom: string)
    requires block ==
      [Decl(Prop.BackgroundColor, bg), Decl(Prop.MarginTop, top), Decl(Prop.MarginBottom, bottom),
       Decl(Prop.Padding, "15px"), Decl(Prop.BorderRadius, "6px")]
    requires inline ==
      [Decl(Prop.MarginTop, top), Decl(Prop.MarginBottom, bottom), Decl(Prop.Padding, "15px"), Decl(Prop.Background, bg),
       Decl(Prop.BorderRadius, "6px"), Decl(Prop.FontSize, "14px"), Decl(Prop.LineHeight, "1.5"), Decl(Prop.Color, "#333"),
       Decl(Prop.OverflowX, "auto"), Decl(Prop.FontFamily, "Consolas, Monaco, 'Andale Mono', monospace"),
       Decl(Prop.Border, "1px solid #e1e4e8")]
    ensures Consistent(block, inline) && Covers(block, inline)
  {
  }

  /** What the bold block writes, character for character. */
  lemma {:induction false} BoldBlockText(s: Settings)
    ensures BlockText(Bold, s) == ".markdown-preview-view strong {\n  color: " + s.boldColor + " !important;\n}\n"
  {
    var ds := Block(Bold, s);
    assert DeclLines(ds[1..]) == "";
    BoldBlockRegroup(s.boldColor, DeclLines(ds));
  }

  lemma BoldBlockRegroup(c: string, lines: string)
    requires lines == "  " + "color" + ": " + c + " !important;\n" + ""
    ensures Scope + " strong" + " {\n" + lines + "}\n" == ".markdown-preview-view strong {\n  color: " + c + " !important;\n}\n"
  {
  }
}

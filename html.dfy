/**
  The markup the renderer rules produce: elements whose presentation is a
  list of inline CSS declarations, written out the way the rules' template
  strings write them. A `Hole` marks the place where a rule puts the text
  it was given (the `${text}` of its template).
 */
module Html {

  /** The CSS properties the rules and the stylesheet set. */
  datatype Prop =
    Background | BackgroundColor | Border | BorderBottom | BorderLeft | BorderLeftColor | BorderRadius | BorderTop | BoxShadow | Color | Display | FontFamily | FontSize | FontWeight | Height | LetterSpacing | LineHeight | Margin | MarginBottom | MarginTop | MaxWidth | Opacity | OverflowX | Padding | PaddingBottom | PaddingLeft | TextAlign | TextDecoration | WordBreak

  function PropName(p: Prop): string
  {
    match p
    case Background => "background"
    case BackgroundColor => "background-color"
    case Border => "border"
    case BorderBottom => "border-bottom"
    case BorderLeft => "border-left"
    case BorderLeftColor => "border-left-color"
    case BorderRadius => "border-radius"
    case BorderTop => "border-top"
    case BoxShadow => "box-shadow"
    case Color => "color"
    case Display => "display"
    case FontFamily => "font-family"
    case FontSize => "font-size"
    case FontWeight => "font-weight"
    case Height => "height"
    case LetterSpacing => "letter-spacing"
    case LineHeight => "line-height"
    case Margin => "margin"
    case MarginBottom => "margin-bottom"
    case MarginTop => "margin-top"
    case MaxWidth => "max-width"
    case Opacity => "opacity"
    case OverflowX => "overflow-x"
    case Padding => "padding"
    case PaddingBottom => "padding-bottom"
    case PaddingLeft => "padding-left"
    case TextAlign => "text-align"
    case TextDecoration => "text-decoration"
    case WordBreak => "word-break"
  }

  /** One CSS declaration `prop: value;`. */
  datatype Decl = Decl(prop: Prop, value: string)

  /** One HTML attribute `name="value"`. */
  datatype Attr = Attr(name: string, value: string)

  datatype Html =
    | Text(text: string)
    | Hole
    | Elem(tag: string, attrs: seq<Attr>, style: seq<Decl>, kids: seq<Html>)
    | Void(tag: string, attrs: seq<Attr>, style: seq<Decl>)

  function DeclText(d: Decl): string
  {
    PropName(d.prop) + ": " + d.value + ";"
  }

  /** The declarations separated by single spaces. */
  function StyleText(ds: seq<Decl>): string
  {
    if |ds| == 0 then ""
    else if |ds| == 1 then DeclText(ds[0])
    else DeclText(ds[0]) + " " + StyleText(ds[1..])
  }

  function AttrsText(attrs: seq<Attr>): string
  {
    if attrs == [] then "" else " " + attrs[0].name + "=\"" + attrs[0].value + "\"" + AttrsText(attrs[1..])
  }

  /** The `style` attribute, which always comes last and is left out when there is nothing to declare. */
  function StyleAttr(ds: seq<Decl>): string
  {
    if ds == [] then "" else " style=\"" + StyleText(ds) + "\""
  }

  function OpenTag(tag: string, attrs: seq<Attr>, style: seq<Decl>): string
  {
    "<" + tag + AttrsText(attrs) + StyleAttr(style) + ">"
  }

  function CloseTag(tag: string): string
  {
    "</" + tag + ">"
  }

  /** The markup text of `h`, with `fill` written where the holes are. */
  function Emit(h: Html, fill: string): string
    decreases h, 1
  {
    match h
    case Text(t) => t
    case Hole => fill
    case Elem(tag, attrs, style, kids) => OpenTag(tag, attrs, style) + EmitAll(kids, fill) + CloseTag(tag)
    case Void(tag, attrs, style) => "<" + tag + AttrsText(attrs) + StyleAttr(style) + " />"
  }

  function EmitAll(hs: seq<Html>, fill: string): string
    decreases hs, 0
  {
    if hs == [] then "" else Emit(hs[0], fill) + EmitAll(hs[1..], fill)
  }

  /** How many holes `h` has. */
  function Holes(h: Html): nat
    decreases h, 1
  {
    match h
    case Hole => 1
    case Elem(_, _, _, kids) => HolesAll(kids)
    case _ => 0
  }

  function HolesAll(hs: seq<Html>): nat
    decreases hs, 0
  {
    if hs == [] then 0 else Holes(hs[0]) + HolesAll(hs[1..])
  }

  /** The markup before the first hole of `h`, and the markup after it. */
  function Pre(h: Html): string
    decreases h, 1
  {
    match h
    case Elem(tag, attrs, style, kids) => OpenTag(tag, attrs, style) + PreAll(kids)
    case Hole => ""
    case _ => Emit(h, "")
  }

  function PreAll(hs: seq<Html>): string
    decreases hs, 0
  {
    if hs == [] then ""
    else if Holes(hs[0]) > 0 then Pre(hs[0])
    else Emit(hs[0], "") + PreAll(hs[1..])
  }

  function Post(h: Html): string
    decreases h, 1
  {
    match h
    case Elem(tag, attrs, style, kids) => PostAll(kids) + CloseTag(tag)
    case _ => ""
  }

  function PostAll(hs: seq<Html>): string
    decreases hs, 0
  {
    if hs == [] then ""
    else if Holes(hs[0]) > 0 then Post(hs[0]) + EmitAll(hs[1..], "")
    else PostAll(hs[1..])
  }

  /** Markup without a hole does not depend on the fill. */
  lemma {:induction false} NoHole(h: Html, c: string)
    requires Holes(h) == 0
    ensures Emit(h, c) == Emit(h, "")
    decreases h, 1
  {
    match h
    case Elem(tag, attrs, style, kids) => NoHoleAll(kids, c);
    case _ =>
  }

  lemma {:induction false} NoHoleAll(hs: seq<Html>, c: string)
    requires HolesAll(hs) == 0
    ensures EmitAll(hs, c) == EmitAll(hs, "")
    decreases hs, 0
  {
    if hs != [] {
      NoHole(hs[0], c);
      NoHoleAll(hs[1..], c);
    }
  }

  /** Markup with exactly one hole writes the fill verbatim between a fixed prefix and suffix. */
  lemma {:induction false} Plug(h: Html, c: string)
    requires Holes(h) == 1
    ensures Emit(h, c) == Pre(h) + c + Post(h)
    decreases h, 1
  {
    match h
    case Hole =>
      assert Emit(h, c) == "" + c + "";
    case Elem(tag, attrs, style, kids) =>
      PlugAll(kids, c);
    case _ =>
  }

  lemma {:induction false} PlugAll(hs: seq<Html>, c: string)
    requires HolesAll(hs) == 1
    ensures EmitAll(hs, c) == PreAll(hs) + c + PostAll(hs)
    decreases hs, 0
  {
    var h, rest := hs[0], hs[1..];
    if Holes(h) > 0 {
      Plug(h, c);
      NoHoleAll(rest, c);
      calc {
        EmitAll(hs, c);
        Emit(h, c) + EmitAll(rest, c);
        (Pre(h) + c + Post(h)) + EmitAll(rest, "");
        Pre(h) + c + (Post(h) + EmitAll(rest, ""));
      }
    } else {
      NoHole(h, c);
      PlugAll(rest, c);
      calc {
        EmitAll(hs, c);
        Emit(h, "") + EmitAll(rest, c);
        Emit(h, "") + (PreAll(rest) + c + PostAll(rest));
        (Emit(h, "") + PreAll(rest)) + c + PostAll(rest);
      }
    }
  }

  /** Every inline declaration in `h`, outermost element first. */
  function Styles(h: Html): seq<Decl>
    decreases h, 1
  {
    match h
    case Elem(_, _, style, kids) => style + StylesAll(kids)
    case Void(_, _, style) => style
    case _ => []
  }

  function StylesAll(hs: seq<Html>): seq<Decl>
    decreases hs, 0
  {
    if hs == [] then [] else Styles(hs[0]) + StylesAll(hs[1..])
  }

  /** An element holding just the fill prints its opening tag, the fill and its closing tag. */
  lemma {:induction false} EmitSingleHole(tag: string, attrs: seq<Attr>, style: seq<Decl>, c: string)
    ensures Emit(Elem(tag, attrs, style, [Hole]), c) == OpenTag(tag, attrs, style) + c + CloseTag(tag)
  {
    assert EmitAll([Hole], c) == Emit(Hole, c) + EmitAll([], c);
  }

  /** An opening tag with a style and no other attribute. */
  lemma {:induction false} StyledOpenTag(tag: string, ds: seq<Decl>)
    requires ds != []
    ensures OpenTag(tag, [], ds) == "<" + tag + " style=\"" + StyleText(ds) + "\">"
  {
    var x := StyleText(ds);
    calc {
      OpenTag(tag, [], ds);
      "<" + tag + "" + (" style=\"" + x + "\"") + ">";
      "<" + tag + " style=\"" + x + "\">";
    }
  }

  /** `t` occurs in `s` as a contiguous piece. */
  predicate Contains(s: string, t: string)
  {
    exists i, j :: 0 <= i <= j <= |s| && s[i..j] == t
  }

  lemma {:induction false} ContainsMiddle(a: string, t: string, b: string)
    ensures Contains(a + t + b, t)
  {
    var s := a + t + b;
    assert s[|a|..|a| + |t|] == t;
  }

  /** `P + c + Q` determines `c` once `P` and `Q` are fixed. */
  lemma {:induction false} CancelAround(p: string, c: string, d: string, q: string)
    requires p + c + q == p + d + q
    ensures c == d
  {
    var l := p + c + q;
    var r := p + d + q;
    assert |c| == |d|;
    assert c == l[|p|..|p| + |c|];
    assert d == r[|p|..|p| + |d|];
  }

  lemma {:induction false} PrefixCancel(p: string, c: string, d: string)
    requires c != d
    ensures p + c != p + d
  {
    assert (p + c)[|p|..] == c;
    assert (p + d)[|p|..] == d;
  }
}

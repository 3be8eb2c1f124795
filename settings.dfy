/**
  The visual configuration that drives every rendered element and the
  exported stylesheet, the colour presets, and the two ways the editor
  replaces it: a preset button and the settings panel's inputs.
 */
module SettingsModel {

  /** The complete configuration. Numbers are JavaScript numbers, modelled as reals. */
  datatype Settings = Settings(
    headingColor: string,
    boldColor: string,
    textColor: string,
    codeBg: string,
    codeMarginTop: real,
    codeMarginBottom: real,
    fontSize: real,
    lineHeight: real)

  /** The configuration the editor starts with. */
  const Defaults := Settings("#1e88e5", "#1e88e5", "#3f3f3f", "#f6f8fa", 15.0, 15.0, 16.0, 1.8)

  /** A named colour preset: its key, its primary colour and its display name. */
  datatype Preset = Preset(key: string, primary: string, name: string)

  const Presets: seq<Preset> := [
    Preset("blue", "#1e88e5", "经典蓝"),
    Preset("red", "#d32f2f", "热烈红"),
    Preset("green", "#388e3c", "清新绿"),
    Preset("purple", "#7b1fa2", "优雅紫"),
    Preset("orange", "#f57c00", "活力橙"),
    Preset("black", "#333333", "极简黑")
  ]

  /** The eight fields of a configuration, and the value one of them holds. */
  datatype Field =
    | HeadingColor | BoldColor | TextColor | CodeBg
    | CodeMarginTop | CodeMarginBottom | FontSize | LineHeight

  datatype Value = Color(c: string) | Num(x: real)

  function Get(s: Settings, f: Field): Value
  {
    match f
    case HeadingColor => Color(s.headingColor)
    case BoldColor => Color(s.boldColor)
    case TextColor => Color(s.textColor)
    case CodeBg => Color(s.codeBg)
    case CodeMarginTop => Num(s.codeMarginTop)
    case CodeMarginBottom => Num(s.codeMarginBottom)
    case FontSize => Num(s.fontSize)
    case LineHeight => Num(s.lineHeight)
  }

  /** `s` and `t` hold the same value in every field of `fs`. */
  predicate Agree(s: Settings, t: Settings, fs: set<Field>)
  {
    forall f :: f in fs ==> Get(s, f) == Get(t, f)
  }

  /** A configuration is determined by the values of its eight fields. */
  lemma {:induction false} Extensionality(s: Settings, t: Settings)
    requires forall f :: Get(s, f) == Get(t, f)
    ensures s == t
  {
    assert Get(s, HeadingColor) == Get(t, HeadingColor);
    assert Get(s, BoldColor) == Get(t, BoldColor);
    assert Get(s, TextColor) == Get(t, TextColor);
    assert Get(s, CodeBg) == Get(t, CodeBg);
    assert Get(s, CodeMarginTop) == Get(t, CodeMarginTop);
    assert Get(s, CodeMarginBottom) == Get(t, CodeMarginBottom);
    assert Get(s, FontSize) == Get(t, FontSize);
    assert Get(s, LineHeight) == Get(t, LineHeight);
  }

  /** Choosing a preset: heading and bold colour become `primary`, every other field is kept. */
  function ApplyPreset(s: Settings, primary: string): (r: Settings)
    ensures forall f :: Get(r, f) == (if f in {HeadingColor, BoldColor} then Color(primary) else Get(s, f))
  {
    s.(headingColor := primary, boldColor := primary)
  }

  /** One input of the settings panel: the two colour pickers and the three sliders. */
  datatype Edit =
    | SetHeadingColor(color: string)
    | SetBoldColor(color: string)
    | SetFontSize(size: real)
    | SetCodeMarginTop(top: real)
    | SetCodeMarginBottom(bottom: real)

  /** The field an edit writes and the value it writes there. */
  function Target(e: Edit): Field
  {
    match e
    case SetHeadingColor(_) => HeadingColor
    case SetBoldColor(_) => BoldColor
    case SetFontSize(_) => FontSize
    case SetCodeMarginTop(_) => CodeMarginTop
    case SetCodeMarginBottom(_) => CodeMarginBottom
  }

  function NewValue(e: Edit): Value
  {
    match e
    case SetHeadingColor(c) => Color(c)
    case SetBoldColor(c) => Color(c)
    case SetFontSize(x) => Num(x)
    case SetCodeMarginTop(x) => Num(x)
    case SetCodeMarginBottom(x) => Num(x)
  }

  /** A panel input replaces exactly its own field and keeps the other seven. */
  function ApplyEdit(s: Settings, e: Edit): (r: Settings)
    ensures forall f :: Get(r, f) == (if f == Target(e) then NewValue(e) else Get(s, f))
  {
    match e
    case SetHeadingColor(c) => s.(headingColor := c)
    case SetBoldColor(c) => s.(boldColor := c)
    case SetFontSize(x) => s.(fontSize := x)
    case SetCodeMarginTop(x) => s.(codeMarginTop := x)
    case SetCodeMarginBottom(x) => s.(codeMarginBottom := x)
  }

  /** A preset is the same as using the two colour pickers with its colour. */
  lemma {:induction false} PresetIsTwoColorEdits(s: Settings, primary: string)
    ensures ApplyPreset(s, primary) == ApplyEdit(ApplyEdit(s, SetHeadingColor(primary)), SetBoldColor(primary))
  {
    var a := ApplyPreset(s, primary);
    var b := ApplyEdit(ApplyEdit(s, SetHeadingColor(primary)), SetBoldColor(primary));
    forall f ensures Get(a, f) == Get(b, f) { }
    Extensionality(a, b);
  }

  /** Choosing two presets in a row leaves only the second one's effect. */
  lemma {:induction false} PresetLastWins(s: Settings, p: string, q: string)
    ensures ApplyPreset(ApplyPreset(s, p), q) == ApplyPreset(s, q)
  {
    var a := ApplyPreset(ApplyPreset(s, p), q);
    var b := ApplyPreset(s, q);
    forall f ensures Get(a, f) == Get(b, f) { }
    Extensionality(a, b);
  }

  /** An edit that writes the value the field already holds changes nothing. */
  lemma {:induction false} EditIdempotent(s: Settings, e: Edit)
    requires Get(s, Target(e)) == NewValue(e)
    ensures ApplyEdit(s, e) == s
  {
    var r := ApplyEdit(s, e);
    forall f ensures Get(r, f) == Get(s, f) { }
    Extensionality(r, s);
  }

  /** The starting colours are those of the first preset. */
  lemma DefaultsUseFirstPreset()
    ensures ApplyPreset(Defaults, Presets[0].primary) == Defaults
  {
  }
}

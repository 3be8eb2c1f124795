/**
  The editor's state and the steps that change it: the Markdown text, the
  settings and the last successfully rendered output; the render step that
  wraps a successful parse in the fixed container and keeps the previous
  output when parsing fails; and the Ctrl+B shortcut that wraps the
  selection in bold markers.
 */
module Editor {
  import opened Wrappers
  import opened SettingsModel
  import opened Html
  import opened RenderRules

  /** The text the editor starts with. */
  const DefaultMarkdown := "# 微信公众号排版工具\n\n这是一个 **基于代码实现** 的纯前端排版工具。\n\n## 功能特点\n\n1. **实时预览**：左侧输入，右侧即时显示。\n2. **多主题支持**：内置多种配色方案，一键切换。\n3. **完美兼容**：生成的 HTML 可直接复制到微信后台。\n\n## 代码样式\n\n```javascript\nconst output = \"Hello Wechat\";\nconsole.log(output);\n```\n\n> 排版原本是一件 **枯燥** 的事情，但有了工具，一切变得 **简单**。\n\n### 有序列表\n1. 第一点\n2. 第二点\n\n### 无序列表\n- 苹果\n- 香蕉\n\n---\n\n祝你的文章阅读量 **10万+**！\n"

  // ---------------------------------------------------------------------------
  // The render step.
  // ---------------------------------------------------------------------------

  /** The font stack of the container. */
  const WrapperFont := "-apple-system, BlinkMacSystemFont, 'Helvetica Neue', Arial, sans-serif"

  /** The fixed container the rendered document is placed in; it reads no settings. */
  const Wrapper: Html :=
    Elem("section", [Attr("id", "wechat-typeset")],
         [Decl(Prop.FontFamily, WrapperFont), Decl(Prop.FontSize, "16px")],
         [Text("\n"), Hole, Text("\n")])

  /** The container's opening tag: its id, then its two declarations. */
  const WrapperOpen := "<section" + " id=\"wechat-typeset\"" + " style=\"" + FontDecl + " " + "font-size: 16px;" + "\">"

  const FontDecl := "font-family: " + WrapperFont + ";"

  /** The container puts the rendered document, verbatim, between fixed text on a line of its own. */
  function Wrap(raw: string): (r: string)
    ensures r == WrapperOpen + "\n" + raw + "\n</section>"
  {
    WrapperText(raw);
    Emit(Wrapper, raw)
  }

  lemma {:induction false} WrapperText(raw: string)
    ensures Emit(Wrapper, raw) == WrapperOpen + "\n" + raw + "\n</section>"
  {
    WrapperOpenTag();
    WrapperHole();
    Plug(Wrapper, raw);
    WrapRegroup(WrapperOpen, raw);
  }

  /** The container's one hole sits between two line breaks. */
  lemma {:induction false} WrapperHole()
    ensures Holes(Wrapper) == 1
    ensures Pre(Wrapper) == OpenTag("section", Wrapper.attrs, Wrapper.style) + "\n"
    ensures Post(Wrapper) == "\n" + CloseTag("section")
  {
    var kids := Wrapper.kids;
    assert HolesAll(kids[2..]) == 0;
    assert HolesAll(kids) == 1;
    assert PreAll(kids) == "\n";
    assert EmitAll(kids[2..], "") == "\n";
    assert PostAll(kids) == "\n";
  }

  lemma {:induction false} WrapperOpenTag()
    ensures OpenTag("section", Wrapper.attrs, Wrapper.style) == WrapperOpen
  {
    var id, size := " id=\"wechat-typeset\"", "font-size: 16px;";
    WrapperStyleText();
    WrapperAttrsText();
    assert StyleAttr(Wrapper.style) == " style=\"" + (FontDecl + " " + size) + "\"";
    OpenTagRegroup(id, FontDecl, size);
  }

  lemma {:induction false} WrapperStyleText()
    ensures StyleText(Wrapper.style) == FontDecl + " " + "font-size: 16px;"
  {
    var ds := Wrapper.style;
    assert ds[1..] == [Decl(Prop.FontSize, "16px")];
    FontDeclText(WrapperFont);
  }

  lemma {:induction false} WrapperAttrsText()
    ensures AttrsText(Wrapper.attrs) == " id=\"wechat-typeset\""
  {
    assert Wrapper.attrs[1..] == [];
  }

  lemma FontDeclText(font: string)
    ensures DeclText(Decl(Prop.FontFamily, font)) == "font-family: " + font + ";"
  {
  }

  lemma OpenTagRegroup(id: string, fd: string, size: string)
    ensures "<" + "section" + id + (" style=\"" + (fd + " " + size) + "\"") + ">"
         == "<section" + id + " style=\"" + fd + " " + size + "\">"
  {
  }

  lemma WrapRegroup(open: string, raw: string)
    ensures open + "\n" + raw + ("\n" + "</" + "section" + ">") == open + "\n" + raw + "\n</section>"
  {
  }

  /**
    The output after one render: a successful parse is rendered with the
    current settings and wrapped; a failed one leaves the previous output.
   */
  function NextOutput(prev: string, parsed: Option<seq<Doc>>, s: Settings): (r: string)
    ensures parsed.None? ==> r == prev
    ensures parsed.Some? ==> r == WrapperOpen + "\n" + RenderDocs(parsed.value, s) + "\n</section>"
  {
    match parsed
    case Some(docs) => Wrap(RenderDocs(docs, s))
    case None => prev
  }

  /** An empty document gives the bare container. */
  lemma {:induction false} EmptyDocument(prev: string, s: Settings)
    ensures NextOutput(prev, Some([]), s) == WrapperOpen + "\n\n</section>"
  {
    assert RenderDocs([], s) == "";
    EmptyRegroup(WrapperOpen);
  }

  lemma EmptyRegroup(open: string)
    ensures open + "\n" + "" + "\n</section>" == open + "\n\n</section>"
  {
  }

  /** Settings that agree on every field the document's rules read give the same output. */
  lemma {:induction false} OutputIsolation(prev: string, docs: seq<Doc>, s: Settings, t: Settings)
    requires Agree(s, t, DocsDeps(docs))
    ensures NextOutput(prev, Some(docs), s) == NextOutput(prev, Some(docs), t)
  {
    DocsIsolation(docs, s, t);
  }

  /** The output determines the rendered document it wraps. */
  lemma {:induction false} WrapInjective(a: string, b: string)
    requires Wrap(a) == Wrap(b)
    ensures a == b
  {
    var p, q := WrapperOpen + "\n", "\n</section>";
    assert Wrap(a) == p + a + q;
    assert Wrap(b) == p + b + q;
    CancelAround(p, a, b, q);
  }

  // ---------------------------------------------------------------------------
  // The bold shortcut.
  // ---------------------------------------------------------------------------

  /** Ctrl or Cmd together with b, in either case. */
  predicate IsBoldShortcut(ctrl: bool, meta: bool, key: string)
  {
    (ctrl || meta) && (key == "b" || key == "B")
  }

  /** The text with `**` inserted before `start` and after `end`. */
  function BoldSplice(val: string, start: nat, end: nat): (r: string)
    requires start <= end <= |val|
    ensures |r| == |val| + 4
    ensures r[..start] == val[..start]
    ensures r[start..start + 2] == "**"
    ensures r[start + 2..end + 2] == val[start..end]
    ensures r[end + 2..end + 4] == "**"
    ensures r[end + 4..] == val[end..]
  {
    val[..start] + "**" + val[start..end] + "**" + val[end..]
  }

  /** Taking the two markers out again gives back the text before the shortcut. */
  lemma {:induction false} BoldSpliceUndo(val: string, start: nat, end: nat)
    requires start <= end <= |val|
    ensures var r := BoldSplice(val, start, end);
      r[..start] + r[start + 2..end + 2] + r[end + 4..] == val
  {
    var r := BoldSplice(val, start, end);
    assert val == val[..start] + val[start..end] + val[end..];
  }

  // ---------------------------------------------------------------------------
  // The editor.
  // ---------------------------------------------------------------------------

  class App {
    var markdown: string
    var settings: Settings
    var htmlOutput: string

    constructor ()
      ensures markdown == DefaultMarkdown && settings == Defaults && htmlOutput == ""
    {
      markdown := DefaultMarkdown;
      settings := Defaults;
      htmlOutput := "";
    }

    /** The text area's change handler. */
    method SetMarkdown(text: string)
      modifies this`markdown
      ensures markdown == text
    {
      markdown := text;
    }

    /** A preset button. */
    method ApplyPreset(primary: string)
      modifies this`settings
      ensures settings == SettingsModel.ApplyPreset(old(settings), primary)
      ensures settings.headingColor == primary && settings.boldColor == primary
      ensures forall f :: f !in {HeadingColor, BoldColor} ==> Get(settings, f) == Get(old(settings), f)
    {
      settings := SettingsModel.ApplyPreset(settings, primary);
    }

    /** One input of the settings panel. */
    method EditSettings(e: Edit)
      modifies this`settings
      ensures settings == ApplyEdit(old(settings), e)
      ensures Get(settings, Target(e)) == NewValue(e)
      ensures forall f :: f != Target(e) ==> Get(settings, f) == Get(old(settings), f)
    {
      settings := ApplyEdit(settings, e);
    }

    /**
      The render effect, run whenever the text or the settings change. The
      parser is a parameter: it turns the text into a document, or fails.
     */
    method Render(parse: string -> Option<seq<Doc>>)
      modifies this`htmlOutput
      ensures htmlOutput == NextOutput(old(htmlOutput), parse(markdown), settings)
      ensures parse(markdown).None? ==> htmlOutput == old(htmlOutput)
    {
      var parsed := parse(markdown);
      match parsed {
        case Some(docs) =>
          htmlOutput := Wrap(RenderDocs(docs, settings));
        case None =>
      }
    }

    /**
      The text area's key handler for the bold shortcut, given the selection
      `[start, end)`. It reports whether it handled the key and returns the
      selection to restore, which covers the text that was selected.
     */
    method BoldShortcut(ctrl: bool, meta: bool, key: string, start: nat, end: nat)
      returns (handled: bool, selStart: nat, selEnd: nat)
      requires start <= end <= |markdown|
      modifies this`markdown
      ensures handled == IsBoldShortcut(ctrl, meta, key)
      ensures handled ==> markdown == BoldSplice(old(markdown), start, end)
      ensures !handled ==> markdown == old(markdown)
      ensures handled ==> selStart == start + 2 && selEnd == end + 2
      ensures !handled ==> selStart == start && selEnd == end
      ensures selEnd <= |markdown| && markdown[selStart..selEnd] == old(markdown)[start..end]
    {
      handled := IsBoldShortcut(ctrl, meta, key);
      if handled {
        markdown := BoldSplice(markdown, start, end);
        selStart, selEnd := start + 2, end + 2;
      } else {
        selStart, selEnd := start, end;
      }
    }
  }
}

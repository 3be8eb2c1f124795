# WeCodeFormat typesetting core in Dafny

WeCodeFormat is a browser editor that turns Markdown into an HTML fragment
for a social-publishing editor that keeps only inline styles. This project
models its core, `index.tsx`, and proves properties of that model:

- **Settings** (`settings.dfy`): the eight-field visual configuration and its
  starting value; the six colour presets; the preset buttons; and the five
  inputs of the settings panel (two colour pickers, three sliders).
- **Render rule table** (`render.dfy`): the eleven overridden renderer
  methods. Each is an `Html` template whose inline style is a list of CSS
  declarations, with a hole where the rule's `${text}` goes (`html.dfy`
  prints templates the way the template strings write them, and
  `markup.dfy` shows that a declaration's value sits in the printed text
  between pieces that do not depend on it). Parsed
  documents are trees whose children are rendered first and handed to the
  parent as its content.
- **Render step** (`app.dfy`): a successful parse is wrapped in the fixed
  `section#wechat-typeset` container; a failed parse keeps the previous
  output.
- **Stylesheet exporter** (`stylesheet.dfy`): the notes-application CSS
  built from the same settings, and its parity with the inline rules.
- **Bold shortcut** (`app.dfy`): Ctrl/Cmd+B wraps the selection in `**`
  and restores a selection over the same text.
- **Editor state** (`app.dfy`): a class `App` holding the Markdown text,
  the settings and the last output; each handler is a method.

Numbers in template strings are printed by `NumberFormat.NumStr`: the
exact decimal value, with at most 15 fraction digits.

## Model

| member | source | states |
|---|---|---|
| SettingsModel.ApplyPreset | index.tsx:85-91 | Heading and bold colour become the preset's colour; every other field keeps its value |
| SettingsModel.ApplyEdit | index.tsx:417-462 | A panel input writes exactly its own field and keeps the other seven |
| SettingsModel.Extensionality | index.tsx:6-15 | A configuration is determined by its eight fields |
| SettingsModel.PresetIsTwoColorEdits | index.tsx:85-91 | A preset is the same as setting both colour pickers to its colour |
| SettingsModel.PresetLastWins | index.tsx:85-91 | Of two presets chosen in a row, only the second has any effect |
| SettingsModel.EditIdempotent | index.tsx:417-462 | An input that writes the value its field already holds changes nothing |
| SettingsModel.DefaultsUseFirstPreset | index.tsx:65-74 | The starting heading and bold colours are those of the first (blue) preset |
| NumberFormat.NatStr | index.tsx:103 | A whole number prints as decimal digits with no leading zero (zero prints as "0") |
| NumberFormat.NatStrValue | index.tsx:103 | The digits a whole number prints as spell that number back |
| NumberFormat.FracStrValue | index.tsx:103 | The fraction digits are the fraction truncated: what they leave out is less than one unit of their last place, and nothing when fewer than the maximum were needed |
| NumberFormat.NumStr | index.tsx:100-140 | The text every `${number}` in a template shows; it is never empty. `NumStrValue` states what it denotes |
| NumberFormat.NumStrValue | index.tsx:100-140 | A number that is not negative prints as the digits of its whole part and, unless it is whole, a point and its fraction digits (at most 15, truncated, exact when fewer are needed) |
| NumberFormat.WholeNumber | index.tsx:436-441 | A whole slider value prints as its digits alone, with no decimal point |
| NumberFormat.DefaultHeadingSizes | index.tsx:103-105 | At font size 16, level-1 headings print 22.4 and level-2 headings print 18 |
| RenderRules.RenderNode | index.tsx:100-158 | What the rule for a node returns: the rule's markup (`Template`) printed with the node's content written verbatim, once, between a prefix and a suffix that the content does not change; the image and the horizontal rule print no content. `Isolation` and `ColorDepsUsed` state which settings the text depends on |
| RenderRules.HeadingDispatch | index.tsx:100-108 | Level 1 is a centred h1 at 1.4× the font size; level 2 a centred section around a span at 1.125× with a heading-colour bottom border; every other level an h3 with a 4px heading-colour left border. Each holds its text once |
| RenderRules.DefaultTitle | index.tsx:103 | At the starting settings, a level-1 heading is a centred h1 of 22.4px in #1e88e5 |
| RenderRules.ListMarkup | index.tsx:137-140 | Ordered lists open and close with ol, other lists with ul; the start number plays no part |
| RenderRules.OneHoleEach | index.tsx:100-158 | Every rule except image and horizontal rule writes its content exactly once; those two write none |
| RenderRules.ContentVerbatim | index.tsx:100-158 | Each rule writes its content verbatim between a prefix and a suffix that do not depend on that content |
| RenderRules.NoContent | index.tsx:146-153 | Image and horizontal-rule markup depends only on attributes and settings |
| RenderRules.ImageMarkup | index.tsx:146-148 | An image is an img whose src is the address and whose alt is the text, in that order, followed by its fixed style |
| RenderRules.IgnoredArguments | index.tsx:122-158 | The code language, the list start and the image and link titles never change the output |
| RenderRules.Isolation | index.tsx:100-158 | Two configurations that agree on the fields a rule reads give that rule the same markup |
| RenderRules.ColorDepsUsed | index.tsx:100-158 | Every colour a rule reads shows in its printed text: two configurations that differ in that colour and agree on the rule's other fields make the rule return different strings |
| RenderRules.HeadingShowsColor | index.tsx:100-108 | At the same font size, a different heading colour changes a heading's text at every level (once in an h1, twice in the level-2 span and in an h3) |
| RenderRules.BlockquoteShowsColor | index.tsx:117-119 | At the same font size, a different heading colour changes a quote's text through its left border |
| RenderRules.CodeShowsColor | index.tsx:122-124 | At the same margins, a different code background changes a code block's text, whatever its language |
| RenderRules.ParagraphShowsColor | index.tsx:112-114 | At the same font size and line height, a different text colour changes a paragraph's text |
| RenderRules.ListShowsColor | index.tsx:137-140 | At the same font size, a different text colour changes a list's text, whatever its start |
| RenderRules.HrShowsColor | index.tsx:151-153 | A different heading colour changes the horizontal rule's text through its dashed top border |
| RenderRules.LinkShowsColor | index.tsx:156-158 | A different heading colour changes a link's text, whatever its title |
| RenderRules.StrongMarkup | index.tsx:132-134 | Bold text renders to exactly `<strong style="color: C; font-weight: bold;">TEXT</strong>` with C the bold colour |
| RenderRules.StrongShowsBoldColor | index.tsx:132-134 | Bold text under two different bold colours renders differently |
| RenderRules.RenderDocsAppend | index.tsx:160-161 | Siblings render as the texts of their parts joined with nothing in between |
| RenderRules.RenderDocsSingle | index.tsx:160-161 | A lone document renders as itself |
| RenderRules.DocIsolation | index.tsx:160-161 | A whole document renders the same under two configurations that agree on every field its rules read |
| RenderRules.DocsIsolation | index.tsx:160-161 | The same for a sequence of sibling documents |
| RenderRules.BoldColorMeansStrong | index.tsx:132-134 | A document reads the bold colour if and only if it contains bold text |
| RenderRules.BoldColorMeansStrongAll | index.tsx:132-134 | The same for a sequence of sibling documents |
| RenderRules.BoldColorOnlyReachesStrong | index.tsx:425 | Changing the bold colour leaves the rendering of a document with no bold text unchanged |
| Stylesheet.ObsidianCss | index.tsx:239-296 | The exported stylesheet opens with its header comment; `EveryBlockWritten` and `Parity` state what follows it |
| Stylesheet.EveryBlockWritten | index.tsx:239-296 | The stylesheet contains the block of every selector |
| Stylesheet.InlineStylesOf | index.tsx:100-134 | The inline declarations each block is compared with are exactly all the declarations in the markup of the counterpart rule |
| Stylesheet.Parity | index.tsx:241-294 | For every configuration, a block and its counterpart rule never give one property two different values. Every declaration of the block is also made inline, directly or through the shorthand the rule uses; the one exception is the pane's font family |
| Stylesheet.BoldBlockText | index.tsx:279-281 | The bold block is exactly `.markdown-preview-view strong {` / `  color: C !important;` / `}` |
| Editor.Wrap | index.tsx:162-164 | The output is the fixed opening tag, a line break, the rendered document verbatim, a line break and `</section>` |
| Editor.NextOutput | index.tsx:160-168 | A successful parse yields the wrapped rendering of its documents; a failed parse keeps the previous output |
| Editor.EmptyDocument | index.tsx:162-164 | An empty document yields the bare container |
| Editor.OutputIsolation | index.tsx:160-169 | The output depends only on the settings fields the document's rules read |
| Editor.WrapInjective | index.tsx:162-164 | Different renderings give different outputs: the container loses nothing |
| Editor.BoldSplice | index.tsx:196-199 | The text grows by four; `**` sits before the selection and after it; the selected text sits between them; the text before and after is unchanged |
| Editor.BoldSpliceUndo | index.tsx:196-199 | Removing the two markers gives back the original text |
| Editor.App.constructor | index.tsx:60-74 | The editor starts with the sample text, the starting settings and an empty output |
| Editor.App.SetMarkdown | index.tsx:534 | The text area's change replaces the text |
| Editor.App.ApplyPreset | index.tsx:85-91 | The settings become the preset's update of the previous settings |
| Editor.App.EditSettings | index.tsx:417-462 | The settings become the panel input's update of the previous settings |
| Editor.App.Render | index.tsx:159-169 | The output becomes the render step's result for the current text and settings; a failed parse leaves it unchanged |
| Editor.App.BoldShortcut | index.tsx:188-207 | Ctrl/Cmd with b or B splices the markers around the selection and returns the selection shifted by two; any other key changes nothing. Either way the returned selection covers the text that was selected |

## Left out

- The page layout, modals, toolbar, copy-status label and scroll synchronisation are not modelled. They are UI, timers and DOM measurements outside the core.
- The clipboard copy is not modelled, because it is I/O.
- The Markdown parser (marked, with its line-break and GFM options) is not modelled. `Editor.App.Render` takes it as a parameter that returns a document tree or fails. marked's own output for nodes the editor does not override (emphasis, tables, raw HTML, text escaping) is `Raw` text in that tree.
- NumberFormat.NumStr: prints the exact decimal value of a real, not JavaScript's shortest round-trip text for a binary double. The two differ where double arithmetic is inexact: in double arithmetic 17 × 1.4 is 23.799999999999997, while the model prints 23.8. Fractions longer than 15 digits are truncated, not rounded.
- The sliders' ranges (12–20, 0–50, step 1) and the `Number(...)` conversion are not modelled. Any real is accepted, as the core accepts any value it is given.
- Editor.App.BoldShortcut: the deferred `setTimeout` that focuses the text area and sets the selection is modelled as the selection the method returns. `preventDefault` and the browser's default handling of other keys are not modelled.
- Editor.App.BoldShortcut: requires `start <= end <= |markdown|`, which the browser guarantees for a text area's selection. Positions here count Unicode scalar values (Dafny's `char`), while the text area's selection offsets and `substring` count UTF-16 code units. The two disagree after any character outside the Basic Multilingual Plane (an emoji, say), and a selection boundary inside a surrogate pair cannot be expressed. `Editor.BoldSplice` has the same limit.
- RenderRules.ColorDepsUsed: covers the colour fields only. For the numeric fields (font size, line height, code margins) it would need `NumStr` to be injective, which is not proved; beyond 15 fraction digits it is not, since they are truncated.
- Exact output strings are proved only for the bold rule, the list's tags, the image's attributes, the container and the bold stylesheet block. The other rules are stated through their declaration lists and the verbatim-content lemmas.
- Stylesheet.Parity: the pane's font family (with "Segoe UI", Roboto, Helvetica) differs from the inline container's font family ('Helvetica Neue', Arial). The container's 16px font size is also fixed and does not follow the settings. The parity lemma excludes that declaration rather than claiming agreement.
- The log message written on a parse failure is not modelled, because it is I/O.

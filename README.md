# Tubaina image and centered-paragraph renderers in Dafny

Tubaina turns a delimiter-based markup into HTML, LaTeX and Kindle markup. Each
(element, backend) pair has one renderer. This project models two of them and
proves their contracts.

- **LaTeX image renderer** (`ImageTag`). It turns an image chunk into a
  `figure` environment. The environment holds one `\includegraphics` with one
  sizing clause, the image file name, an optional `\caption` and an optional
  `\label`. Three independent probes read the chunk's freeform options. The
  model writes each probe as a scanning function, not as a regex engine. Each
  function's contract states the `Matcher.find()` result of its pattern:
  - `w=(\d+)%?`: the leftmost start, with group 1 the greedy digit run;
  - `"(.+?)"`: the leftmost opening quote that has a match, closed by the first
    quote at least two positions later;
  - `label=(\S+)?`: the leftmost start, with group 1 the greedy non-whitespace
    run, or null when the run is empty.

  Matching follows the Java defaults. `(?i)` folds ASCII letters only. `\d` is
  `[0-9]`. `\s` is `[ \t\n\x0B\f\r]`. The explicit width percentage wins.
  Without it, full text width is chosen exactly when `pixels * 25.4 / dpi`
  strictly exceeds the maximum width, and native scale otherwise. `getScale`
  runs the same width probe and reads its digits as an `int`.
- **HTML centered-paragraph renderer** (`CenteredParagraphTag`). It wraps the
  content verbatim in `<p class="center">…</p>` and ignores its options.

Modules, one per file:

- `Strings` (`strings.dfy`): character classes, greedy runs and decimal values.
- `FilenameUtils` (`filename_utils.dfy`): commons-io `getName`.
- `LatexImageTag` (`latex_image_tag.dfy`): `ImageTag.parse` and `getScale`.
- `HtmlCenteredParagraphTag` (`html_centered_paragraph_tag.dfy`).

`parse` is imperative. It appends to a `StringBuilder` step by step. The model
keeps that form: `LatexImageTag.Parse` extends a local string in source order.
Each conditional append is a small method (`AppendSizing`, `AppendCaption`,
`AppendLabel`). Each method is proved against the specification function of
its step.

Inputs that come from outside the renderer are parameters:

- the image's pixel width and DPI, fields of `ImageChunk`;
- `TubainaBuilder.getMaximumWidth()`, the parameter `maxWidth`;
- Java's `Double.toString` of the computed width, the parameter `showReal`.

After a bare `label=` the label is the file name that `FilenameUtils.getName`
returns, extension included (ImageTag.java:32 and :45).

## Model

| member | source | states |
|---|---|---|
| `Strings.AsciiCaseMatch` | src/main/java/br/com/caelum/tubaina/parser/latex/ImageTag.java:22 | `(?i)` without UNICODE_CASE: a lower-case ASCII pattern letter matches exactly itself and its ASCII upper-case form (no Unicode folding such as the Kelvin sign), and any non-letter matches only itself |
| `Strings.KeyAtIgnoresAsciiCase` | src/main/java/br/com/caelum/tubaina/parser/latex/ImageTag.java:41 | a lower-case literal occurs at a position iff every input character there equals the literal's character or is its ASCII upper-case form |
| `LatexImageTag.WidthKeyForms` | src/main/java/br/com/caelum/tubaina/parser/latex/ImageTag.java:22 | the width key is found exactly where `w=` or `W=` occurs |
| `LatexImageTag.LabelKeyForms` | src/main/java/br/com/caelum/tubaina/parser/latex/ImageTag.java:41 | the label key is found exactly where `label` in any mix of ASCII cases is followed by `=` |
| `Strings.RunLength` | src/main/java/br/com/caelum/tubaina/parser/latex/ImageTag.java:41 | what a greedy `\d+` or `\S+` captures: every character in the run is in the class, and the run stops at the end of the input or at a character outside it |
| `Strings.MaximalRunUnique` | src/main/java/br/com/caelum/tubaina/parser/latex/ImageTag.java:22 | a greedy run is determined by its start position, so a group's text is unique |
| `Strings.DecimalRoundTrip` | src/main/java/br/com/caelum/tubaina/parser/latex/ImageTag.java:61 | the digit-string value read by `parseInt`/`parseDouble` inverts the decimal spelling of every natural number |
| `Strings.DecimalValueBound` | src/main/java/br/com/caelum/tubaina/parser/latex/ImageTag.java:61 | the value `parseInt`/`parseDouble` read from k digits is below 10^k |
| `Strings.DecimalLeadingZero` | src/main/java/br/com/caelum/tubaina/parser/latex/ImageTag.java:61 | a leading zero in the captured digits does not change the value read |
| `FilenameUtils.BaseName` | src/main/java/br/com/caelum/tubaina/parser/latex/ImageTag.java:32 | `getName`: the result is a suffix of the path with no `/` or `\`, and is preceded by a separator unless it is the whole path |
| `FilenameUtils.BaseNameIgnoresDirectory` | src/main/java/br/com/caelum/tubaina/parser/latex/ImageTag.java:32 | any directory prefix in front of a separator-free file name is dropped |
| `LatexImageTag.FirstAnchor` | src/main/java/br/com/caelum/tubaina/parser/latex/ImageTag.java:23-24 | `find()` tries start positions from left to right: the result is the first position where the pattern can start, and none exists when it returns None |
| `LatexImageTag.FirstWidthMatchUnique` | src/main/java/br/com/caelum/tubaina/parser/latex/ImageTag.java:22-24 | the first width match and its digit group are unique |
| `LatexImageTag.WidthProbe` | src/main/java/br/com/caelum/tubaina/parser/latex/ImageTag.java:22-24 | finds a match iff `w=`/`W=` followed by a digit occurs; the match is the leftmost one, its group the maximal digit run after `=` |
| `LatexImageTag.ChosenSizing` | src/main/java/br/com/caelum/tubaina/parser/latex/ImageTag.java:17-30 | percentage sizing iff the options hold a width match, with width `max * N / 100` for the first match's digits N whatever the image size; otherwise text width iff `pixels * 25.4 / dpi > max` strictly, native scale otherwise |
| `LatexImageTag.OverflowsCrossMultiplied` | src/main/java/br/com/caelum/tubaina/parser/latex/ImageTag.java:17-26 | the strict test `pixels * 25.4 / dpi > max` holds iff `pixels * 25.4 > max * dpi` for a positive DPI, iff `pixels * 25.4 < max * dpi` for a negative one, and iff the pixel width is positive for a zero DPI (the IEEE infinity or NaN quotient) |
| `LatexImageTag.SizingClause` | src/main/java/br/com/caelum/tubaina/parser/latex/ImageTag.java:24-30 | the clause is `[width=` + the rendered width + `mm]` for a percentage, `[width=\textwidth]` exactly for text width and `[scale=1]` exactly for native scale |
| `LatexImageTag.AppendSizing` | src/main/java/br/com/caelum/tubaina/parser/latex/ImageTag.java:22-30 | the if / else-if / else appends exactly one sizing clause, the one ChosenSizing selects |
| `LatexImageTag.CaptionProbe` | src/main/java/br/com/caelum/tubaina/parser/latex/ImageTag.java:35-37 | a match exists iff two quotes at least two apart occur; the opening quote is the leftmost one with a match, the closing quote the nearest one that leaves a non-empty group |
| `LatexImageTag.CaptionText` | src/main/java/br/com/caelum/tubaina/parser/latex/ImageTag.java:35-38 | a caption exists iff a quote, at least one character and a later quote occur; it is group 1 of the first match, the text strictly between the opening and closing quotes CaptionProbe finds; it is never empty and holds no quote after its first character |
| `LatexImageTag.AppendCaption` | src/main/java/br/com/caelum/tubaina/parser/latex/ImageTag.java:35-39 | appends the `\caption` block for the caption found, and nothing when there is none |
| `LatexImageTag.LabelProbe` | src/main/java/br/com/caelum/tubaina/parser/latex/ImageTag.java:41-44 | finds a match iff `label=` (ASCII case ignored) occurs; the match is the leftmost one; the group is null iff the input ends or whitespace follows, otherwise the maximal non-whitespace run |
| `LatexImageTag.AppendLabel` | src/main/java/br/com/caelum/tubaina/parser/latex/ImageTag.java:41-46 | appends a `\label` line only after a `label=` match, holding the given label or else the image file name |
| `LatexImageTag.BareLabelIsFileName` | src/main/java/br/com/caelum/tubaina/parser/latex/ImageTag.java:43-45 | when the first `label=` is followed by whitespace or the end, the label is the image file name |
| `LatexImageTag.EmptyOptionsFigure` | src/main/java/br/com/caelum/tubaina/parser/latex/ImageTag.java:35-46 | for every image name, options with no quote pair at least two apart and no `label=` give no caption block and no label line |
| `LatexImageTag.Parse` | src/main/java/br/com/caelum/tubaina/parser/latex/ImageTag.java:15-51 | the output starts with the figure header and `\includegraphics` and ends with the figure footer; in between come the chosen sizing clause, `{name}` and a newline with the last path component, the optional caption block and the optional label line, in that order |
| `LatexImageTag.ExplicitWidthIgnoresImage` | src/main/java/br/com/caelum/tubaina/parser/latex/ImageTag.java:22-26 | with a width option, the pixel width and DPI have no influence on the sizing |
| `LatexImageTag.BoundaryIsNativeScale` | src/main/java/br/com/caelum/tubaina/parser/latex/ImageTag.java:26-29 | a printed width exactly equal to the maximum gives `[scale=1]` |
| `LatexImageTag.WideImageUsesTextWidth` | src/main/java/br/com/caelum/tubaina/parser/latex/ImageTag.java:17-27 | 3000 pixels at 150 dpi (508 mm) without a width option gives text width for every maximum below 508 mm |
| `LatexImageTag.GetScale` | src/main/java/br/com/caelum/tubaina/parser/latex/ImageTag.java:53-64 | null for null input and for input without a width match; otherwise the first match's digit value, or the NumberFormatException of `parseInt` when it exceeds 2^31 - 1 |
| `LatexImageTag.ShortScaleNeverThrows` | src/main/java/br/com/caelum/tubaina/parser/latex/ImageTag.java:61 | a first width match of at most nine digits fits an `int`, so getScale returns its value and never throws |
| `LatexImageTag.GetScaleAgreesWithParse` | src/main/java/br/com/caelum/tubaina/parser/latex/ImageTag.java:53-64 | getScale is non-null exactly when parse takes the explicit-width branch, and parse's width is `max` times its percentage over 100 |
| `HtmlCenteredParagraphTag.Parse` | src/main/java/br/com/caelum/tubaina/parser/html/CenteredParagraphTag.java:7-8 | the output starts with `<p class="center">`, ends with `</p>`, holds the content unchanged between them, and is longer than the content by the wrapper length |
| `HtmlCenteredParagraphTag.Unwrap` | src/main/java/br/com/caelum/tubaina/parser/html/CenteredParagraphTag.java:8 | the reference inverse: it succeeds iff the text has the wrapper around it, and then the text is the wrapper around the result |
| `HtmlCenteredParagraphTag.UnwrapParse` | src/main/java/br/com/caelum/tubaina/parser/html/CenteredParagraphTag.java:8 | unwrapping a rendered paragraph gives back the content verbatim, with no escaping |
| `HtmlCenteredParagraphTag.OptionsIgnored` | src/main/java/br/com/caelum/tubaina/parser/html/CenteredParagraphTag.java:7-8 | any two option strings give the same output |
| `HtmlCenteredParagraphTag.ParseInjective` | src/main/java/br/com/caelum/tubaina/parser/html/CenteredParagraphTag.java:8 | different contents give different paragraphs |

## Left out

- Java `null`: a null options string (the matcher throws), a null chunk path (`getName` returns null) and a null paragraph content (concatenated as `null`) are not modelled, because Dafny strings cannot be null. The null input of `getScale` is modelled as `None`.
- Java `double` arithmetic: the printed width and the percentage width are exact reals, and there is no IEEE rounding near the strict `>`. A zero DPI is the one exception. There the Java quotient is +Infinity, NaN or -Infinity, so the model counts an overflow exactly when the pixel width is positive.
- `Double.toString` of the percentage width is the parameter `showReal`, not a concrete formatter.
- `ImageChunk.getWidth`, `ImageChunk.getDpi` and `TubainaBuilder.getMaximumWidth` read image metadata or global configuration. They are inputs to the model (`ImageChunk.width`, `ImageChunk.dpi`, `maxWidth`).
- The general `java.util.regex` engine is not modelled. Only the three fixed patterns are, each as a scanning function.
- `FilenameUtils.getName` in newer commons-io versions rejects paths that contain a NUL character. That check is not modelled.
- `Double.parseDouble` in the width branch reads the same digits as a real number. The model does not reproduce how precision is lost for very long digit runs.
- `ChunkSplitter`, `RegexConfigurator`, `KindleParser`, `HtmlModule`, `HtmlAndKindleCodeTag` and the syntax highlighter are not part of this model. Their implementations are not among the modelled files.
- The `Tag` interface and the dispatch of chunks to renderers are not modelled.

/** The LaTeX renderer of an image chunk: a `figure` environment holding one
    `\includegraphics` whose sizing, caption and label come from three
    independent probes of the chunk's freeform options string. */
module LatexImageTag {
  import opened Strings
  import FilenameUtils

  /** What the renderer reads from an image chunk. `width` (pixels) and
      `dpi` are the image file's metadata. */
  datatype ImageChunk = ImageChunk(path: string, options: string, width: int, dpi: int)

  const Header: string := "\\begin{figure}[H]\n\\begin{center}\n"
  const IncludeGraphics: string := "\\includegraphics"
  const Opening: string := Header + IncludeGraphics
  const Closing: string := "\\end{center}\\end{figure}\n\n"
  const TextWidthClause: string := "[width=\\textwidth]"
  const NativeScaleClause: string := "[scale=1]"
  const MaxInt: int := 0x7FFF_FFFF

  // ---------------------------------------------------------------------
  // Leftmost search, as `Matcher.find()` tries start positions from left to right

  /** The fixed beginnings the three patterns need at a start position. */
  datatype Anchor = WidthKey | Quote | LabelKey

  predicate AnchorAt(anchor: Anchor, s: string, i: nat) {
    match anchor
    case WidthKey => WidthAt(s, i)
    case Quote => QuoteAt(s, i)
    case LabelKey => LabelAt(s, i)
  }

  /** Each anchor stands for its pattern's start condition at every
      position; the probes call this so that FirstAnchor's quantified
      contract speaks about WidthAt, QuoteAt and LabelAt. */
  lemma AnchorMeaning(s: string)
    ensures forall i: nat :: AnchorAt(WidthKey, s, i) <==> WidthAt(s, i)
    ensures forall i: nat :: AnchorAt(Quote, s, i) <==> QuoteAt(s, i)
    ensures forall i: nat :: AnchorAt(LabelKey, s, i) <==> LabelAt(s, i)
  {
  }

  /** The leftmost position at or after `from` where `anchor` occurs. */
  function FirstAnchor(anchor: Anchor, s: string, from: nat): (r: Option<nat>)
    decreases |s| - from
    ensures r.Some? ==> from <= r.value < |s| && AnchorAt(anchor, s, r.value)
    ensures r.Some? ==> forall q :: from <= q < r.value ==> !AnchorAt(anchor, s, q)
    ensures r.None? ==> forall q :: from <= q < |s| ==> !AnchorAt(anchor, s, q)
  {
    if from >= |s| then None
    else if AnchorAt(anchor, s, from) then Some(from)
    else FirstAnchor(anchor, s, from + 1)
  }

  // ---------------------------------------------------------------------
  // Width probe: the first match of `(?s)(?i)w=(\d+)%?`

  /** A match of the width pattern starts at `i`. */
  predicate WidthAt(s: string, i: nat) {
    KeyAt(s, i, "w=") && i + 2 < |s| && IsDigit(s[i + 2])
  }

  /** Under `(?i)` the key `w=` is spelled `w=` or `W=`, and in no other way. */
  lemma WidthKeyForms(s: string, i: nat)
    ensures KeyAt(s, i, "w=") <==> i + 2 <= |s| && (s[i] == 'w' || s[i] == 'W') && s[i + 1] == '='
  {
    var key := "w=";
    assert key[0] == 'w' && key[1] == '=';
    KeyAtIgnoresAsciiCase(s, i, key);
  }

  /** Start of the match and its group 1, the greedy digit run. */
  datatype WidthMatch = WidthMatch(start: nat, digits: string)

  ghost predicate IsFirstWidthMatch(s: string, i: nat, digits: string) {
    && WidthAt(s, i)
    && (forall q :: 0 <= q < i ==> !WidthAt(s, q))
    && IsMaximalRun(s, i + 2, digits, IsDigit)
  }

  lemma FirstWidthMatchUnique(s: string, i: nat, digits: string)
    requires IsFirstWidthMatch(s, i, digits)
    ensures forall i': nat, d' :: IsFirstWidthMatch(s, i', d') ==> i' == i && d' == digits
  {
    forall i': nat, d' | IsFirstWidthMatch(s, i', d') ensures i' == i && d' == digits {
      assert !(i' < i) && !(i < i');
      MaximalRunUnique(s, i + 2, digits, IsDigit);
      MaximalRunUnique(s, i + 2, d', IsDigit);
    }
  }

  /** `Matcher.find()` on the width pattern. */
  function WidthProbe(s: string): (m: Option<WidthMatch>)
    ensures m.None? <==> forall i :: 0 <= i < |s| ==> !WidthAt(s, i)
    ensures m.Some? ==> IsFirstWidthMatch(s, m.value.start, m.value.digits) && |m.value.digits| >= 1
    ensures forall i, d :: IsFirstWidthMatch(s, i, d) ==> m == Some(WidthMatch(i, d))
  {
    AnchorMeaning(s);
    match FirstAnchor(WidthKey, s, 0)
    case None => None
    case Some(p) =>
      var n := RunLength(s, p + 2, IsDigit);
      FirstWidthMatchUnique(s, p, s[p + 2..p + 2 + n]);
      Some(WidthMatch(p, s[p + 2..p + 2 + n]))
  }

  // ---------------------------------------------------------------------
  // Sizing clause

  /** The three sizing clauses of `\includegraphics`. */
  datatype Sizing = Percent(mm: real) | TextWidth | NativeScale

  /** `pixels * 25.4 / dpi > maxWidth` on doubles. With `dpi == 0` the
      quotient is +Infinity, NaN or -Infinity as `pixels` is positive, zero
      or negative, so only a positive width overflows. */
  predicate Overflows(pixels: int, dpi: int, maxWidth: real) {
    if dpi == 0 then pixels > 0
    else (pixels as real) * 25.4 / (dpi as real) > maxWidth
  }

  /** The overflow test without division: for a positive DPI the printed
      width exceeds the maximum iff `pixels * 25.4 > maxWidth * dpi`; a
      negative DPI flips the comparison; a zero DPI overflows iff the pixel
      width is positive. */
  lemma OverflowsCrossMultiplied(pixels: int, dpi: int, maxWidth: real)
    ensures dpi == 0 ==> (Overflows(pixels, dpi, maxWidth) <==> pixels > 0)
    ensures dpi > 0 ==> (Overflows(pixels, dpi, maxWidth) <==> (pixels as real) * 25.4 > maxWidth * (dpi as real))
    ensures dpi < 0 ==> (Overflows(pixels, dpi, maxWidth) <==> (pixels as real) * 25.4 < maxWidth * (dpi as real))
  {
    if dpi != 0 {
      var d := dpi as real;
      var q := (pixels as real) * 25.4 / d;
      assert q * d == (pixels as real) * 25.4;
    }
  }

  /** The sizing parse chooses: an explicit percentage of the maximum width
      wins over everything else; otherwise full text width exactly when the
      printed width strictly exceeds the maximum, otherwise native scale. */
  function ChosenSizing(options: string, pixels: int, dpi: int, maxWidth: real): (z: Sizing)
    ensures z.Percent? <==> exists i :: 0 <= i < |options| && WidthAt(options, i)
    ensures forall i, d :: IsFirstWidthMatch(options, i, d) ==>
              AllDigits(d) && z == Percent(maxWidth * (DecimalValue(d) as real / 100.0))
    ensures !z.Percent? ==> (z == TextWidth <==> Overflows(pixels, dpi, maxWidth))
  {
    match WidthProbe(options)
    case Some(m) => Percent(maxWidth * (DecimalValue(m.digits) as real / 100.0))
    case None => if Overflows(pixels, dpi, maxWidth) then TextWidth else NativeScale
  }

  /** The text of a sizing clause; `showReal` stands for Java's rendering of
      a double. */
  function SizingClause(z: Sizing, showReal: real -> string): (r: string)
    ensures r == TextWidthClause <==> z == TextWidth
    ensures r == NativeScaleClause <==> z == NativeScale
    ensures z.Percent? ==> r == "[width=" + showReal(z.mm) + "mm]"
  {
    match z
    case Percent(mm) =>
      var r := "[width=" + showReal(mm) + "mm]";
      assert r[1] == 'w' && r[|r| - 2] == 'm';
      r
    case TextWidth => TextWidthClause
    case NativeScale => NativeScaleClause
  }

  // ---------------------------------------------------------------------
  // Caption probe: the first match of `(?s)(?i)"(.+?)"`

  predicate QuoteAt(s: string, i: nat) {
    i < |s| && s[i] == '"'
  }

  /** A match of the caption pattern from the quote at `a` to the quote at
      `b`, with at least one character between them. */
  predicate IsCaptionMatch(s: string, a: nat, b: nat) {
    a + 2 <= b && QuoteAt(s, a) && QuoteAt(s, b)
  }

  datatype CaptionSpan = CaptionSpan(open: nat, close: nat)

  /** `Matcher.find()` on the caption pattern: the leftmost opening quote
      that has a match, closed by the nearest quote the lazy `.+?` allows. */
  function CaptionProbe(s: string): (m: Option<CaptionSpan>)
    ensures m.None? <==> forall a: nat, b: nat :: !IsCaptionMatch(s, a, b)
    ensures m.Some? ==> IsCaptionMatch(s, m.value.open, m.value.close)
    ensures m.Some? ==> forall a: nat, b: nat :: IsCaptionMatch(s, a, b) ==> m.value.open <= a
    ensures m.Some? ==> forall j :: m.value.open + 2 <= j < m.value.close ==> !QuoteAt(s, j)
    ensures m.Some? ==> forall b: nat :: IsCaptionMatch(s, m.value.open, b) ==> m.value.close <= b
  {
    AnchorMeaning(s);
    match FirstAnchor(Quote, s, 0)
    case None => None
    case Some(q) =>
      match FirstAnchor(Quote, s, q + 2)
      case None => None
      case Some(c) =>
        assert IsCaptionMatch(s, q, c);
        Some(CaptionSpan(q, c))
  }

  /** Group 1 of the caption match. */
  function CaptionText(s: string): (c: Option<string>)
    ensures c.Some? <==> exists a: nat, b: nat :: IsCaptionMatch(s, a, b)
    ensures c.Some? ==> |c.value| >= 1 && forall j :: 1 <= j < |c.value| ==> c.value[j] != '"'
    ensures c.Some? ==>
              && CaptionProbe(s).Some?
              && c.value == s[CaptionProbe(s).value.open + 1..CaptionProbe(s).value.close]
  {
    match CaptionProbe(s)
    case None => None
    case Some(sp) =>
      var text := s[sp.open + 1..sp.close];
      assert forall j :: 1 <= j < |text| ==> text[j] == s[sp.open + 1 + j] && !QuoteAt(s, sp.open + 1 + j);
      Some(text)
  }

  function CaptionBlock(caption: Option<string>): string {
    match caption
    case None => ""
    case Some(c) => "\n\n\\caption{" + c + "}\n\n"
  }

  // ---------------------------------------------------------------------
  // Label probe: the first match of `(?s)(?i)label=(\S+)?`

  predicate LabelAt(s: string, i: nat) {
    KeyAt(s, i, "label=")
  }

  /** Under `(?i)` each letter of `label` may be in either ASCII case; the
      `=` is literal. */
  lemma LabelKeyForms(s: string, i: nat)
    ensures LabelAt(s, i) <==>
              && i + 6 <= |s|
              && (s[i] == 'l' || s[i] == 'L') && (s[i + 1] == 'a' || s[i + 1] == 'A')
              && (s[i + 2] == 'b' || s[i + 2] == 'B') && (s[i + 3] == 'e' || s[i + 3] == 'E')
              && (s[i + 4] == 'l' || s[i + 4] == 'L') && s[i + 5] == '='
  {
    var key := "label=";
    assert key[0] == 'l' && key[1] == 'a' && key[2] == 'b' && key[3] == 'e' && key[4] == 'l' && key[5] == '=';
    KeyAtIgnoresAsciiCase(s, i, key);
  }

  /** Start of the match and group 1, which is null when no non-whitespace
      character follows `label=`. */
  datatype LabelMatch = LabelMatch(start: nat, given: Option<string>)

  /** `Matcher.find()` on the label pattern. */
  function LabelProbe(s: string): (m: Option<LabelMatch>)
    ensures m.None? <==> forall i :: 0 <= i < |s| ==> !LabelAt(s, i)
    ensures m.Some? ==> LabelAt(s, m.value.start) && forall q :: 0 <= q < m.value.start ==> !LabelAt(s, q)
    ensures m.Some? && m.value.given.None? ==>
              m.value.start + 6 == |s| || IsSpace(s[m.value.start + 6])
    ensures m.Some? && m.value.given.Some? ==>
              |m.value.given.value| >= 1 && IsMaximalRun(s, m.value.start + 6, m.value.given.value, IsNonSpace)
  {
    AnchorMeaning(s);
    match FirstAnchor(LabelKey, s, 0)
    case None => None
    case Some(p) =>
      var n := RunLength(s, p + 6, IsNonSpace);
      Some(LabelMatch(p, if n == 0 then None else Some(s[p + 6..p + 6 + n])))
  }

  /** The label written: the given one, or the image file name after a bare
      `label=`; none without `label=`. */
  function LabelText(m: Option<LabelMatch>, imgsrc: string): Option<string> {
    match m
    case None => None
    case Some(LabelMatch(_, None)) => Some(imgsrc)
    case Some(LabelMatch(_, Some(g))) => Some(g)
  }

  function LabelLine(given: Option<string>): string {
    match given
    case None => ""
    case Some(l) => "\\label{" + l + "}\n"
  }

  function FileReference(imgsrc: string): string {
    "{" + imgsrc + "}\n"
  }

  // ---------------------------------------------------------------------
  // The renderer

  /** The `if / else if / else` of `parse` that appends the sizing clause. */
  method AppendSizing(output: string, chunk: ImageChunk, maxWidth: real, showReal: real -> string)
    returns (extended: string)
    ensures extended == output + SizingClause(ChosenSizing(chunk.options, chunk.width, chunk.dpi, maxWidth), showReal)
  {
    var imageWidthExceeds := Overflows(chunk.width, chunk.dpi, maxWidth);
    var widthOption := WidthProbe(chunk.options);
    if widthOption.Some? {
      var mm := maxWidth * (DecimalValue(widthOption.value.digits) as real / 100.0);
      assert ChosenSizing(chunk.options, chunk.width, chunk.dpi, maxWidth) == Percent(mm);
      extended := output + ("[width=" + showReal(mm) + "mm]");
    } else if imageWidthExceeds {
      assert ChosenSizing(chunk.options, chunk.width, chunk.dpi, maxWidth) == TextWidth;
      extended := output + TextWidthClause;
    } else {
      assert ChosenSizing(chunk.options, chunk.width, chunk.dpi, maxWidth) == NativeScale;
      extended := output + NativeScaleClause;
    }
  }

  /** The optional caption block of `parse`. */
  method AppendCaption(output: string, options: string) returns (extended: string)
    ensures extended == output + CaptionBlock(CaptionText(options))
  {
    var description := CaptionProbe(options);
    extended := output;
    if description.Some? {
      extended := extended + ("\n\n\\caption{" + options[description.value.open + 1..description.value.close] + "}\n\n");
    }
  }

  /** The optional label line of `parse`; `imgsrc` is the image file name. */
  method AppendLabel(output: string, options: string, imgsrc: string) returns (extended: string)
    ensures extended == output + LabelLine(LabelText(LabelProbe(options), imgsrc))
  {
    var labelMatch := LabelProbe(options);
    extended := output;
    if labelMatch.Some? {
      var givenLabel := labelMatch.value.given;
      extended := extended + ("\\label{" + (if givenLabel.Some? then givenLabel.value else imgsrc) + "}\n");
    }
  }

  /** `parse(chunk)`: appends header, sizing clause, file reference, optional
      caption block, optional label line and footer, in that order.
      `maxWidth` is the configured maximum page width in millimetres. */
  method Parse(chunk: ImageChunk, maxWidth: real, showReal: real -> string) returns (output: string)
    ensures Opening <= output
    ensures |Closing| <= |output| && output[|output| - |Closing|..] == Closing
    ensures output ==
              Opening
              + SizingClause(ChosenSizing(chunk.options, chunk.width, chunk.dpi, maxWidth), showReal)
              + FileReference(FilenameUtils.BaseName(chunk.path))
              + CaptionBlock(CaptionText(chunk.options))
              + LabelLine(LabelText(LabelProbe(chunk.options), FilenameUtils.BaseName(chunk.path)))
              + Closing
  {
    output := Header;
    output := output + IncludeGraphics;
    ghost var previous := output;
    output := AppendSizing(output, chunk, maxWidth, showReal);
    PrefixExtends(Opening, previous, output[|previous|..]);

    var imgsrc := FilenameUtils.BaseName(chunk.path);
    previous := output;
    output := output + ("{" + imgsrc + "}\n");
    PrefixExtends(Opening, previous, FileReference(imgsrc));

    previous := output;
    output := AppendCaption(output, chunk.options);
    PrefixExtends(Opening, previous, output[|previous|..]);

    previous := output;
    output := AppendLabel(output, chunk.options, imgsrc);
    PrefixExtends(Opening, previous, output[|previous|..]);

    previous := output;
    output := output + Closing;
    PrefixExtends(Opening, previous, Closing);
    SuffixOfAppend(previous, Closing);
  }

  // ---------------------------------------------------------------------
  // getScale

  /** Result of `getScale`: null, an Integer, or the NumberFormatException
      Integer.parseInt throws for a digit run beyond 2^31 - 1. */
  datatype Scale = Null | Value(percent: nat) | NumberFormatError

  /** `getScale(string)`: same width probe as parse, its digits read as an int. */
  function GetScale(s: Option<string>): (r: Scale)
    ensures s.None? ==> r == Null
    ensures s.Some? ==> (r == Null <==> forall i :: 0 <= i < |s.value| ==> !WidthAt(s.value, i))
    ensures s.Some? ==> forall i, d :: IsFirstWidthMatch(s.value, i, d) ==>
              AllDigits(d) && r == (if DecimalValue(d) <= MaxInt then Value(DecimalValue(d)) else NumberFormatError)
  {
    match s
    case None => Null
    case Some(str) =>
      match WidthProbe(str)
      case None => Null
      case Some(m) =>
        var n := DecimalValue(m.digits);
        if n <= MaxInt then Value(n) else NumberFormatError
  }

  // ---------------------------------------------------------------------
  // Properties

  /** getScale yields a value (or throws) exactly when parse takes its
      explicit-width branch on the same options, and the percentage it
      returns is the one parse scales the maximum width by. */
  lemma GetScaleAgreesWithParse(options: string, pixels: int, dpi: int, maxWidth: real)
    ensures GetScale(Some(options)) != Null <==> ChosenSizing(options, pixels, dpi, maxWidth).Percent?
    ensures GetScale(Some(options)).Value? ==>
              ChosenSizing(options, pixels, dpi, maxWidth).mm
              == maxWidth * (GetScale(Some(options)).percent as real / 100.0)
  {
    var m := WidthProbe(options);
    if m.Some? {
      assert IsFirstWidthMatch(options, m.value.start, m.value.digits);
    }
  }

  /** A width of at most nine digits always fits an `int`, so getScale
      returns a value and never throws. */
  lemma ShortScaleNeverThrows(s: string)
    ensures forall i, d :: IsFirstWidthMatch(s, i, d) && |d| <= 9 ==> GetScale(Some(s)).Value?
  {
    var m := WidthProbe(s);
    if m.Some? && |m.value.digits| <= 9 {
      assert IsFirstWidthMatch(s, m.value.start, m.value.digits);
      DecimalValueBound(m.value.digits);
      Pow10Grows(|m.value.digits|, 9);
      assert Pow10(9) == 1_000_000_000;
    }
  }

  /** An explicit width option decides the sizing whatever the image's
      pixel width and resolution. */
  lemma ExplicitWidthIgnoresImage(options: string, p1: int, d1: int, p2: int, d2: int, maxWidth: real)
    requires exists i :: 0 <= i < |options| && WidthAt(options, i)
    ensures ChosenSizing(options, p1, d1, maxWidth) == ChosenSizing(options, p2, d2, maxWidth)
  {
    var m := WidthProbe(options);
    assert IsFirstWidthMatch(options, m.value.start, m.value.digits);
  }

  /** A width exactly equal to the maximum is not an overflow. */
  lemma BoundaryIsNativeScale(options: string, pixels: int, dpi: int, maxWidth: real)
    requires forall i :: 0 <= i < |options| ==> !WidthAt(options, i)
    requires dpi != 0 && (pixels as real) * 25.4 / (dpi as real) == maxWidth
    ensures ChosenSizing(options, pixels, dpi, maxWidth) == NativeScale
  {
  }

  /** A 3000 pixel image at 150 dpi is 508 mm wide, so without a width
      option it is fitted to the text width for any smaller maximum. */
  lemma WideImageUsesTextWidth(options: string, maxWidth: real)
    requires forall i :: 0 <= i < |options| ==> !WidthAt(options, i)
    requires maxWidth < 508.0
    ensures ChosenSizing(options, 3000, 150, maxWidth) == TextWidth
  {
  }

  /** After a bare `label=` the label is the image file name. */
  lemma BareLabelIsFileName(options: string, i: nat, imgsrc: string)
    requires LabelAt(options, i) && forall q :: 0 <= q < i ==> !LabelAt(options, q)
    requires i + 6 == |options| || IsSpace(options[i + 6])
    ensures LabelText(LabelProbe(options), imgsrc) == Some(imgsrc)
  {
    var m := LabelProbe(options);
    assert m.Some?;
    assert !(m.value.start < i) && !(i < m.value.start);
  }

  /** Options the probes do not recognise leave only the mandatory parts. */
  lemma EmptyOptionsFigure(options: string, imgsrc: string)
    requires forall a: nat, b: nat :: !IsCaptionMatch(options, a, b)
    requires forall i :: 0 <= i < |options| ==> !LabelAt(options, i)
    ensures CaptionBlock(CaptionText(options)) == ""
    ensures LabelLine(LabelText(LabelProbe(options), imgsrc)) == ""
  {
  }
}

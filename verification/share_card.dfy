/** Image composition for sharing (src/lib/imageWatermark.ts): where the
    corner watermark goes on an uploaded photo, and the layout of the
    1200x800 share card — the fitted photo, the score, the word-wrapped
    verdict and the watermark badge. Text measurement is the canvas's
    business and comes in as a function from text to width; drawing
    itself is not modelled. */
module ShareCard {
  import opened Wrappers
  import Numeric
  import Seqs
  import Strings

  // ---- corner watermark on a photo ----

  /** The watermark options; an absent field takes its default. */
  datatype WatermarkOptions = WatermarkOptions(text: Option<string>, fontSize: Option<real>,
                                               position: Option<string>, padding: Option<real>)

  datatype Point = Point(x: real, y: real)

  const DefaultWatermarkText: string := "\U{1F463} Rated by FootRateAI.com"
  const DefaultFontSize: real := 16.0
  const DefaultPosition: string := "bottom-right"
  const DefaultPadding: real := 20.0

  /** Where the text's baseline starts on a `w` x `h` image, for a text
      `textWidth` wide. Right-aligned corners end `padding` before the right
      edge, bottom corners sit `padding` above the bottom edge, top corners
      one font size plus `padding` below the top edge; an unknown position
      is treated as bottom-right. */
  function TextPosition(position: string, w: real, h: real, textWidth: real,
                        padding: real, fontSize: real): (p: Point)
    ensures position == "bottom-left" || position == "top-left" ==> p.x == padding
    ensures !(position == "bottom-left" || position == "top-left") ==> p.x + textWidth + padding == w
    ensures position == "top-right" || position == "top-left" ==> p.y == fontSize + padding
    ensures !(position == "top-right" || position == "top-left") ==> p.y + padding == h
  {
    match position
    case "bottom-right" => Point(w - textWidth - padding, h - padding)
    case "bottom-left" => Point(padding, h - padding)
    case "top-right" => Point(w - textWidth - padding, fontSize + padding)
    case "top-left" => Point(padding, fontSize + padding)
    case _ => Point(w - textWidth - padding, h - padding)
  }

  /** `padding` and `fontSize` with their defaults filled in (destructuring
      defaults apply to absent fields only). */
  function Padding(o: WatermarkOptions): real { o.padding.GetOr(DefaultPadding) }
  function FontSize(o: WatermarkOptions): real { o.fontSize.GetOr(DefaultFontSize) }

  /** The text starts at the left padding for the two left corners only. */
  predicate LeftCorner(position: Option<string>) {
    position == Some("bottom-left") || position == Some("top-left")
  }

  /** The baseline hangs from the top for the two top corners only. */
  predicate TopCorner(position: Option<string>) {
    position == Some("top-right") || position == Some("top-left")
  }

  /** `addWatermarkToImage`'s placement on a `w` x `h` image: the text (the
      footprint default when absent) and where its baseline starts.
      `measure(text, size)` is the canvas's width of `text` in the bold
      font of that size. An absent or unknown position is bottom-right. */
  function WatermarkPlacement(o: WatermarkOptions, w: real, h: real, measure: (string, real) -> real): (r: (string, Point))
    ensures o.text.Some? ==> r.0 == o.text.value
    ensures o.text.None? ==> r.0 == DefaultWatermarkText
    ensures LeftCorner(o.position) ==> r.1.x == Padding(o)
    ensures !LeftCorner(o.position) ==> r.1.x + measure(r.0, FontSize(o)) + Padding(o) == w
    ensures TopCorner(o.position) ==> r.1.y == FontSize(o) + Padding(o)
    ensures !TopCorner(o.position) ==> r.1.y + Padding(o) == h
  {
    var text := o.text.GetOr(DefaultWatermarkText);
    (text, TextPosition(o.position.GetOr(DefaultPosition), w, h, measure(text, FontSize(o)),
                        Padding(o), FontSize(o)))
  }

  /** With no options the default text goes 20 from the right and bottom
      edges. */
  lemma DefaultWatermarkBottomRight(w: real, h: real, measure: (string, real) -> real)
    ensures var (text, p) := WatermarkPlacement(WatermarkOptions(None, None, None, None), w, h, measure);
      && text == DefaultWatermarkText
      && p.x + measure(text, 16.0) == w - 20.0 && p.y == h - 20.0
  {
  }

  /** Whatever the position, a text that fits keeps `padding` clear of every
      edge: its box (from one font size above the baseline to the baseline)
      lies within the image shrunk by `padding` on each side. */
  lemma TextKeepsPadding(position: string, w: real, h: real, textWidth: real, padding: real, fontSize: real)
    requires 0.0 <= textWidth && 0.0 <= fontSize
    requires textWidth + 2.0 * padding <= w && fontSize + 2.0 * padding <= h
    ensures var p := TextPosition(position, w, h, textWidth, padding, fontSize);
      && padding <= p.x && p.x + textWidth <= w - padding
      && padding <= p.y - fontSize && p.y <= h - padding
  {
  }

  // ---- the share card ----

  const CardWidth: real := 1200.0
  const CardHeight: real := 800.0
  const MaxPhotoWidth: real := 500.0
  const MaxPhotoHeight: real := 350.0
  const PhotoTop: real := 120.0
  const TextMaxWidth: real := 800.0
  const LineHeight: real := 35.0
  const DefaultVerdict: string := "Foot Analysis Complete"
  const BadgeText: string := "\U{1F463} Rated by FootRateAI.com"

  /** The photo's size on the card: scaled by the largest factor that keeps
      it within 500 x 350. */
  function Fit(w: real, h: real): (r: (real, real))
    requires w > 0.0 && h > 0.0
    ensures 0.0 < r.0 <= MaxPhotoWidth && 0.0 < r.1 <= MaxPhotoHeight
    ensures r.0 * h == r.1 * w
    ensures r.0 == MaxPhotoWidth || r.1 == MaxPhotoHeight
  {
    var scale := Numeric.Min(MaxPhotoWidth / w, MaxPhotoHeight / h);
    FitScale(w, h, scale);
    (w * scale, h * scale)
  }

  /** Scaling both sides by the smaller of the two ratios. */
  lemma FitScale(w: real, h: real, scale: real)
    requires w > 0.0 && h > 0.0 && scale == Numeric.Min(MaxPhotoWidth / w, MaxPhotoHeight / h)
    ensures 0.0 < w * scale <= MaxPhotoWidth && 0.0 < h * scale <= MaxPhotoHeight
    ensures (w * scale) * h == (h * scale) * w
    ensures w * scale == MaxPhotoWidth || h * scale == MaxPhotoHeight
  {
    var a, b := MaxPhotoWidth / w, MaxPhotoHeight / h;
    assert w * a == MaxPhotoWidth && h * b == MaxPhotoHeight;
    assert scale > 0.0;
    if a <= b {
      assert h * a <= h * b by { MulMono(h, a, b); }
    } else {
      assert w * b <= w * a by { MulMono(w, b, a); }
    }
  }

  lemma MulMono(c: real, a: real, b: real)
    requires c > 0.0 && a <= b
    ensures c * a <= c * b
  {
    assert c * b - c * a == c * (b - a);
  }

  /** `verdict || 'Foot Analysis Complete'`. */
  function VerdictText(verdict: Option<string>): (s: string)
    ensures s != ""
    ensures verdict.Some? && verdict.value != "" ==> s == verdict.value
  {
    if verdict.Some? && verdict.value != "" then verdict.value else DefaultVerdict
  }

  /** The words `ws`, each followed by one space: what a wrapped line holds. */
  function Run(ws: seq<string>): string
    decreases |ws|
  {
    if |ws| == 0 then "" else Run(ws[..|ws| - 1]) + ws[|ws| - 1] + " "
  }

  /** Extending a run by the next word. */
  lemma RunSnoc(words: seq<string>, b: nat, i: nat)
    requires b <= i < |words|
    ensures Run(words[b..i + 1]) == Run(words[b..i]) + words[i] + " "
  {
    assert words[b..i + 1][..i - b] == words[b..i];
  }

  /** The line of the words from `b` grew greedily up to `e`: each word after
      the first was added because the line with it measured at most 800. */
  predicate Fits(words: seq<string>, width: string -> real, b: nat, e: nat)
    requires b <= e <= |words|
  {
    forall j :: b < j < e ==> width(Through(words, b, j)) <= TextMaxWidth
  }

  /** The words from `b` through `j`, as one line. */
  function Through(words: seq<string>, b: nat, j: nat): string
    requires b <= j < |words|
  {
    Run(words[b..j + 1])
  }

  /** Where the `k`-th line begins: word 0 for the first, the break before
      it otherwise. */
  function Begin(breaks: seq<nat>, k: nat): nat
    requires k <= |breaks|
  {
    if k == 0 then 0 else breaks[k - 1]
  }

  /** `lines`, `breaks` and `last` are the greedy layout of the first `n`
      words: `lines[k]` holds the words from `Begin(breaks, k)` up to the
      word `breaks[k]` that overflowed it, and `last` the words from the
      last break up to `n`, every line having grown only while it fitted. */
  predicate Layout(words: seq<string>, width: string -> real, lines: seq<string>, breaks: seq<nat>,
                   last: string, n: nat)
    requires n <= |words|
  {
    && |breaks| == |lines|
    && Begin(breaks, |lines|) <= n
    && (n > 0 ==> Begin(breaks, |lines|) < n)
    && (forall k :: 0 <= k < |lines| ==> LineOk(words, width, lines, breaks, k))
    && last == Run(words[Begin(breaks, |lines|)..n])
    && Fits(words, width, Begin(breaks, |lines|), n)
  }

  /** Line `k` of a layout: it holds the words from its beginning up to,
      not including, the break word, grew only while it fitted, and the
      break word overflowed it. */
  predicate LineOk(words: seq<string>, width: string -> real, lines: seq<string>, breaks: seq<nat>, k: nat)
    requires |breaks| == |lines| && k < |lines|
  {
    && Begin(breaks, k) < breaks[k] <= Begin(breaks, |lines|)
    && breaks[k] < |words|
    && lines[k] == Run(words[Begin(breaks, k)..breaks[k]])
    && Fits(words, width, Begin(breaks, k), breaks[k])
    && width(lines[k] + words[breaks[k]] + " ") > TextMaxWidth
  }

  /** A word that overflows a non-empty line starts the next one. */
  lemma LayoutBreak(words: seq<string>, width: string -> real, lines: seq<string>, breaks: seq<nat>,
                    last: string, i: nat)
    requires i < |words| && Layout(words, width, lines, breaks, last, i)
    requires i > 0 && width(last + words[i] + " ") > TextMaxWidth
    ensures Layout(words, width, lines + [last], breaks + [i], words[i] + " ", i + 1)
  {
    var lines', breaks' := lines + [last], breaks + [i];
    assert Begin(breaks', |lines'|) == i;
    forall k | 0 <= k < |lines|
      ensures LineOk(words, width, lines', breaks', k)
    {
      assert LineOk(words, width, lines, breaks, k);
      assert Begin(breaks', k) == Begin(breaks, k);
    }
    assert Begin(breaks', |lines|) == Begin(breaks, |lines|);
    assert LineOk(words, width, lines', breaks', |lines|);
    assert words[i..i + 1][..0] == [];
    assert Run(words[i..i + 1]) == words[i] + " ";
  }

  /** A word that fits, or the very first word, joins the current line. */
  lemma LayoutExtend(words: seq<string>, width: string -> real, lines: seq<string>, breaks: seq<nat>,
                     last: string, i: nat)
    requires i < |words| && Layout(words, width, lines, breaks, last, i)
    requires i == 0 || width(last + words[i] + " ") <= TextMaxWidth
    ensures Layout(words, width, lines, breaks, last + words[i] + " ", i + 1)
  {
    RunSnoc(words, Begin(breaks, |lines|), i);
    if i > Begin(breaks, |lines|) {
      assert Through(words, Begin(breaks, |lines|), i) == last + words[i] + " ";
    }
  }

  /** The verdict's word wrap. `lines` are the lines drawn inside the loop,
      `breaks[k]` the word that did not fit on line `k` and starts the next
      one, `last` the line drawn after the loop and `y` its baseline. */
  method WrapWords(words: seq<string>, width: string -> real, top: real)
    returns (lines: seq<string>, breaks: seq<nat>, last: string, y: real)
    ensures Layout(words, width, lines, breaks, last, |words|)
    ensures Seqs.Concat(lines) + last == Run(words)
    ensures y == top + LineHeight * |lines| as real
  {
    lines, breaks, last, y := [], [], "", top;
    var i := 0;
    while i < |words|
      invariant 0 <= i <= |words|
      invariant Layout(words, width, lines, breaks, last, i)
      invariant Seqs.Concat(lines) + last == Run(words[..i])
      invariant y == top + LineHeight * |lines| as real
    {
      var test := last + words[i] + " ";
      RunSnoc(words, 0, i);
      assert words[0..i] == words[..i] && words[0..i + 1] == words[..i + 1];
      if width(test) > TextMaxWidth && i > 0 {
        LayoutBreak(words, width, lines, breaks, last, i);
        Seqs.ConcatAppend(lines, [last]);
        assert Seqs.Concat([last]) == last;
        lines, breaks, last, y := lines + [last], breaks + [i], words[i] + " ", y + LineHeight;
      } else {
        LayoutExtend(words, width, lines, breaks, last, i);
        last := test;
      }
      i := i + 1;
    }
    assert words[..i] == words;
  }

  /** What the layout promises of each line: no break before the first
      word, a break only where the next word overflowed, and every drawn
      line measuring at most 800 unless it holds a single word. */
  lemma LayoutLines(words: seq<string>, width: string -> real, lines: seq<string>, breaks: seq<nat>,
                    last: string, k: nat)
    requires Layout(words, width, lines, breaks, last, |words|) && k < |lines|
    ensures 0 < breaks[k] < |words|
    ensures width(lines[k] + words[breaks[k]] + " ") > TextMaxWidth
    ensures width(lines[k]) <= TextMaxWidth || breaks[k] == Begin(breaks, k) + 1
    ensures lines[k] != ""
  {
    var b := Begin(breaks, k);
    assert LineOk(words, width, lines, breaks, k);
    if k > 0 {
      assert LineOk(words, width, lines, breaks, k - 1);
    }
    FitsLine(words, width, b, breaks[k]);
    RunNonEmpty(words[b..breaks[k]]);
  }

  /** A drawn line either measures at most 800 or holds a single word. */
  lemma FitsLine(words: seq<string>, width: string -> real, b: nat, e: nat)
    requires b < e <= |words| && Fits(words, width, b, e)
    ensures width(Run(words[b..e])) <= TextMaxWidth || e == b + 1
  {
    if e > b + 1 {
      var j := e - 1;
      assert b < j < e;
      assert width(Through(words, b, j)) <= TextMaxWidth;
    }
  }

  /** The watermark badge in the card's top-right corner. */
  datatype Box = Box(x: real, y: real, width: real, height: real)

  /** The badge: the measured text plus 12 either side, 36 high, 20 from
      the top and right edges. */
  function Badge(textWidth: real): (b: Box)
    ensures b.x + b.width == CardWidth - 20.0 && b.y == 20.0
    ensures b.width == textWidth + 24.0 && b.height == 36.0
  {
    var bw := textWidth + 24.0;
    Box(CardWidth - bw - 20.0, 20.0, bw, 36.0)
  }

  /** Where the photo goes: fitted, horizontally centred, 120 from the
      top; it stays inside the middle 500 of the card. */
  function PhotoBox(w: real, h: real): (b: Box)
    requires w > 0.0 && h > 0.0
    ensures b.x + b.width / 2.0 == CardWidth / 2.0
    ensures 350.0 <= b.x && b.x + b.width <= 850.0
    ensures b.y == PhotoTop && 0.0 < b.height <= MaxPhotoHeight
    ensures b.width * h == b.height * w
  {
    var (sw, sh) := Fit(w, h);
    Box((CardWidth - sw) / 2.0, PhotoTop, sw, sh)
  }

  /** The share card's layout. */
  datatype Card = Card(photo: Box, scoreY: real, lines: seq<string>, last: string, lastY: real,
                       badge: Option<Box>)

  /** `createShareableImage` for a `w` x `h` photo, with the meme verdict if
      the analysis has one: the score 100 below the photo, the verdict's
      lines from 80 below the score, 35 apart, and the badge when asked.
      `verdictWidth` measures text in the verdict's bold 28px font and
      `badgeWidth` in the badge's bold 24px font. */
  method ShareableImage(w: real, h: real, verdict: Option<string>, showWatermark: bool,
                        verdictWidth: string -> real, badgeWidth: string -> real)
    returns (c: Card)
    requires w > 0.0 && h > 0.0
    ensures c.photo == PhotoBox(w, h)
    ensures c.scoreY == c.photo.y + c.photo.height + 100.0
    ensures Seqs.Concat(c.lines) + c.last == Run(VerdictWords(verdict))
    ensures c.last != ""
    ensures forall k :: 0 <= k < |c.lines| ==> c.lines[k] != ""
    ensures forall k :: 0 <= k < |c.lines| ==>
      verdictWidth(c.lines[k]) <= TextMaxWidth || OneWord(VerdictWords(verdict), c.lines[k])
    ensures verdictWidth(c.last) <= TextMaxWidth || OneWord(VerdictWords(verdict), c.last)
    ensures exists breaks :: Layout(VerdictWords(verdict), verdictWidth, c.lines, breaks, c.last,
                                    |VerdictWords(verdict)|)
    ensures c.lastY == c.scoreY + 80.0 + LineHeight * |c.lines| as real
    ensures c.badge.Some? <==> showWatermark
    ensures c.badge.Some? ==> c.badge.value == Badge(badgeWidth(BadgeText))
  {
    var photo := PhotoBox(w, h);
    var scoreY := photo.y + photo.height + 100.0;
    var lines, last, y := WrapVerdict(verdict, verdictWidth, scoreY + 80.0);
    var badge := if showWatermark then Some(Badge(badgeWidth(BadgeText))) else None;
    c := Card(photo, scoreY, lines, last, y, badge);
  }

  /** The verdict (or its fallback) split on spaces. */
  function VerdictWords(verdict: Option<string>): seq<string> {
    Strings.Split(VerdictText(verdict), ' ')
  }

  /** `line` is a single one of `words`, followed by its space. */
  predicate OneWord(words: seq<string>, line: string) {
    exists i :: 0 <= i < |words| && line == words[i] + " "
  }

  /** The verdict (or its fallback) split on spaces and wrapped from
      baseline `top`: no line is empty, nothing is lost, a line breaks only
      where the next word overflowed it, and every drawn line measures at
      most 800 unless it holds a single word. */
  method WrapVerdict(verdict: Option<string>, measure: string -> real, top: real)
    returns (lines: seq<string>, last: string, y: real)
    ensures Seqs.Concat(lines) + last == Run(VerdictWords(verdict))
    ensures last != ""
    ensures forall k :: 0 <= k < |lines| ==> lines[k] != ""
    ensures forall k :: 0 <= k < |lines| ==>
      measure(lines[k]) <= TextMaxWidth || OneWord(VerdictWords(verdict), lines[k])
    ensures measure(last) <= TextMaxWidth || OneWord(VerdictWords(verdict), last)
    ensures exists breaks :: Layout(VerdictWords(verdict), measure, lines, breaks, last, |VerdictWords(verdict)|)
    ensures y == top + LineHeight * |lines| as real
  {
    var words := VerdictWords(verdict);
    var breaks;
    lines, breaks, last, y := WrapWords(words, measure, top);
    LayoutNonEmpty(words, measure, lines, breaks, last);
    forall k | 0 <= k < |lines|
      ensures measure(lines[k]) <= TextMaxWidth || OneWord(words, lines[k])
    {
      LayoutFitsOrOneWord(words, measure, lines, breaks, last, k);
    }
    LastFitsOrOneWord(words, measure, lines, breaks, last);
  }

  /** A line drawn inside the loop fits or is a single word. */
  lemma LayoutFitsOrOneWord(words: seq<string>, width: string -> real, lines: seq<string>, breaks: seq<nat>,
                            last: string, k: nat)
    requires Layout(words, width, lines, breaks, last, |words|) && k < |lines|
    ensures width(lines[k]) <= TextMaxWidth || OneWord(words, lines[k])
  {
    var b := Begin(breaks, k);
    LayoutLines(words, width, lines, breaks, last, k);
    if breaks[k] == b + 1 {
      assert LineOk(words, width, lines, breaks, k);
      assert words[b..b + 1] == [words[b]];
      RunOne(words[b]);
    }
  }

  /** The line drawn after the loop fits or is a single word. */
  lemma LastFitsOrOneWord(words: seq<string>, width: string -> real, lines: seq<string>, breaks: seq<nat>,
                          last: string)
    requires |words| >= 1 && Layout(words, width, lines, breaks, last, |words|)
    ensures width(last) <= TextMaxWidth || OneWord(words, last)
  {
    var b := Begin(breaks, |lines|);
    FitsLine(words, width, b, |words|);
    if |words| == b + 1 {
      assert words[b..] == [words[b]];
      RunOne(words[b]);
    }
  }

  /** A single word makes a run of itself and one space. */
  lemma RunOne(w: string)
    ensures Run([w]) == w + " "
  {
    assert [w][..0] == [];
  }

  /** Laying out at least one word draws no empty line. */
  lemma LayoutNonEmpty(words: seq<string>, width: string -> real, lines: seq<string>, breaks: seq<nat>,
                       last: string)
    requires |words| >= 1 && Layout(words, width, lines, breaks, last, |words|)
    ensures last != ""
    ensures forall k :: 0 <= k < |lines| ==> lines[k] != ""
  {
    RunNonEmpty(words[Begin(breaks, |lines|)..]);
    forall k | 0 <= k < |lines|
      ensures lines[k] != ""
    {
      LayoutLines(words, width, lines, breaks, last, k);
    }
  }

  /** A run of at least one word is never empty. */
  lemma RunNonEmpty(ws: seq<string>)
    requires |ws| >= 1
    ensures |Run(ws)| >= 1
  {
  }
}

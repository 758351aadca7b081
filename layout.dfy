/** The creative itself: where `drawText` stacks the title, subtitle, description and
    call-to-action button below the logo, and the order `generateCreative` draws in. */
module Layout {
  import opened Canvas
  import opened Text
  import opened WordWrap
  import opened Geometry
  import opened Creative

  /** Where the logo picture is loaded from. */
  const LogoSrc: string := "./logo.png"

  /** Corner radius of the call-to-action button. */
  const CtaRadius: real := 16.0

  /** Text sizes are given for a 1080-pixel short side and scaled with the canvas. */
  function Scale(width: real, height: real): (s: real)
    ensures 1080.0 * s <= width && 1080.0 * s <= height
    ensures 1080.0 * s == width || 1080.0 * s == height
  {
    Min(width, height) / 1080.0
  }

  /** Where and how large the title is drawn. */
  datatype TitleBlock = TitleBlock(centerX: real, titleY: real, fontSize: real, lineHeight: real, maxWidth: real)

  /** The title block: centred, wrapped at 90% of the width, starting 8% of the height
      below the logo, in the chosen size scaled to the canvas. */
  function TitleBlockOf(width: real, height: real, size: TitleSize): (b: TitleBlock)
    ensures b.centerX == width / 2.0
    ensures b.maxWidth == 0.9 * width
    ensures var logo := LogoRect(width, height, LogoY(height)); b.titleY == logo.y + logo.height + 0.08 * height
    ensures width > 0.0 && height > 0.0 ==> 0.0 < b.fontSize && 0.0 < b.lineHeight
  {
    var centerX := width / 2.0;
    var scale := Scale(width, height);
    var logoBottomY := LogoY(height) + LogoSize(width, height);
    var titleY := logoBottomY + height * 0.08;
    var font := TitleFontOf(size);
    var fontSize := font.size * scale;
    TitleBlock(centerX, titleY, fontSize, fontSize * font.lineHeight, width * 0.9)
  }

  /** With the title's first line centred vertically on `titleY`, even the largest size
      leaves the line clear of the logo's bottom edge. */
  lemma TitleClearsLogo(width: real, height: real, size: TitleSize)
    requires width > 0.0 && height > 0.0
    ensures var b, logo := TitleBlockOf(width, height, size), LogoRect(width, height, LogoY(height));
      b.titleY - b.fontSize / 2.0 > logo.y + logo.height
  {
    var s := Scale(width, height);
    var f := TitleFontOf(size).size;
    assert f * s <= 140.0 * s;
    assert 140.0 * s <= 140.0 * height / 1080.0;
  }

  /** Sizes and positions of everything below the title. */
  datatype Details = Details(
    subtitleSize: real, subtitleY: real,
    descriptionSize: real, descriptionY: real,
    ctaY: real, ctaBox: Rect, ctaTextSize: real)

  /** The stack below a title of height `titleHeight` that starts at `titleY`: subtitle,
      description and button follow at 4%, 6% and 8% of the height, every size floored. */
  function DetailsOf(width: real, height: real, titleY: real, titleHeight: real): (d: Details)
    ensures d.subtitleSize >= 42.0 && d.subtitleSize >= 52.0 * Scale(width, height)
    ensures d.descriptionSize >= 36.0 && d.descriptionSize >= 42.0 * Scale(width, height)
    ensures d.ctaTextSize >= 28.0 && d.ctaTextSize >= 32.0 * Scale(width, height)
    ensures d.ctaBox.width >= 400.0 && d.ctaBox.width >= 0.35 * width
    ensures d.ctaBox.height >= 80.0 && d.ctaBox.height >= 0.08 * height
    ensures d.ctaBox.x + d.ctaBox.width / 2.0 == width / 2.0
    ensures d.ctaBox.y + d.ctaBox.height / 2.0 == d.ctaY
    ensures height > 0.0 && titleHeight >= 0.0 ==> titleY + titleHeight < d.subtitleY < d.descriptionY < d.ctaY
  {
    var centerX := width / 2.0;
    var scale := Scale(width, height);
    var subtitleSize := Max(52.0 * scale, 42.0);
    var subtitleY := titleY + titleHeight + height * 0.04;
    var descriptionSize := Max(42.0 * scale, 36.0);
    var descriptionY := subtitleY + height * 0.06;
    var ctaY := descriptionY + height * 0.08;
    var ctaWidth := Max(width * 0.35, 400.0);
    var ctaHeight := Max(height * 0.08, 80.0);
    var ctaX := centerX - ctaWidth / 2.0;
    var ctaTextSize := Max(32.0 * scale, 28.0);
    Details(subtitleSize, subtitleY, descriptionSize, descriptionY, ctaY,
            Rect(ctaX, ctaY - ctaHeight / 2.0, ctaWidth, ctaHeight), ctaTextSize)
  }

  /** The button's top edge clears the description's baseline exactly when the canvas is
      taller than 500 pixels; below that the 80-pixel floor makes the button reach up past it. */
  lemma CtaClearsDescription(width: real, height: real, titleY: real, titleHeight: real)
    requires height > 0.0
    ensures var d := DetailsOf(width, height, titleY, titleHeight);
      d.ctaBox.y > d.descriptionY <==> height > 500.0
  {
  }

  /** Every format is taller than 500 pixels, so in every format the button clears the
      description. */
  lemma CtaClearsDescriptionInEveryFormat(format: Format, titleY: real, titleHeight: real)
    ensures var canvas := FormatDimensions(format);
      var d := DetailsOf(canvas.width, canvas.height, titleY, titleHeight);
      d.ctaBox.y > d.descriptionY
  {
    var canvas := FormatDimensions(format);
    CtaClearsDescription(canvas.width, canvas.height, titleY, titleHeight);
  }

  /** The four calls after the title: subtitle, description, button, button label. The
      three texts are centred, spell the three strings in order, and descend when their
      baselines do; the one shape is the button with its 16-pixel corners. */
  function DetailCalls(config: Config, centerX: real, d: Details): (calls: seq<DrawCall>)
    ensures |calls| == 4
    ensures TextsCentred(calls, centerX)
    ensures Spelled(calls) == config.subtitle + config.description + config.cta
    ensures d.subtitleY < d.descriptionY < d.ctaY ==> BaselinesDescend(calls)
    ensures forall i :: 0 <= i < |calls| && !calls[i].FillText? ==> calls[i] == RoundRect(d.ctaBox, CtaRadius)
  {
    var calls := [FillText(config.subtitle, centerX, d.subtitleY),
                  FillText(config.description, centerX, d.descriptionY),
                  RoundRect(d.ctaBox, CtaRadius),
                  FillText(config.cta, centerX, d.ctaY)];
    assert calls[..1][..0] == [];
    assert Spelled(calls[..1]) == "" + config.subtitle == config.subtitle;
    assert calls[..2][..1] == calls[..1];
    assert Spelled(calls[..2]) == config.subtitle + config.description;
    assert calls[..3][..2] == calls[..2];
    assert Spelled(calls[..3]) == config.subtitle + config.description + "";
    assert calls[..3] == calls[..|calls| - 1];
    calls
  }

  /** The calls `drawText` makes: the wrapped title, then the stack below it, which starts
      after the height the title took. */
  function TextCalls(config: Config, width: real, height: real, measure: string -> real): (calls: seq<DrawCall>)
    ensures 5 <= |calls| <= |Split(config.title)| + 4
  {
    var b := TitleBlockOf(width, height, config.titleSize);
    LineCountBounds(Split(config.title), measure, b.maxWidth);
    var title := LineCalls(Wrap(Split(config.title), measure, b.maxWidth), b.centerX, b.titleY, b.lineHeight);
    title + DetailCalls(config, b.centerX, DetailsOf(width, height, b.titleY, BlockHeight(|title|, b.lineHeight)))
  }

  /** Every text is drawn lower than every text drawn before it. */
  ghost predicate BaselinesDescend(calls: seq<DrawCall>)
  {
    forall i, j :: 0 <= i < j < |calls| && calls[i].FillText? && calls[j].FillText? ==> calls[i].y < calls[j].y
  }

  /** Every text is centred on `centerX`. */
  ghost predicate TextsCentred(calls: seq<DrawCall>, centerX: real)
  {
    forall i :: 0 <= i < |calls| && calls[i].FillText? ==> calls[i].x == centerX
  }

  /** `drawText`: draws the title wrapped at 90% of the width, then the subtitle, the
      description and the button below it. */
  method DrawText(config: Config, width: real, height: real, measure: string -> real) returns (log: seq<DrawCall>)
    ensures log == TextCalls(config, width, height, measure)
    ensures TextsCentred(log, width / 2.0)
    ensures width > 0.0 && height > 0.0 ==> BaselinesDescend(log)
    ensures |log| >= 5 && Spelled(log[..|log| - 4]) == config.title + " "
  {
    var b := TitleBlockOf(width, height, config.titleSize);
    var titleCalls, titleHeight := DrawMultilineText(config.title, b.centerX, b.titleY, b.maxWidth, b.lineHeight, measure);
    var d := DetailsOf(width, height, b.titleY, titleHeight);
    log := titleCalls + DetailCalls(config, b.centerX, d);
    assert log[..|log| - 4] == titleCalls;
    TextStack(titleCalls, config, width, height, b.centerX, b.titleY, b.lineHeight, titleHeight, d);
  }

  /** A title whose k-th line sits at `titleY + k * lineHeight`, followed by the stack below it,
      is centred and, on a canvas of positive size, strictly descending. */
  lemma TextStack(titleCalls: seq<DrawCall>, config: Config, width: real, height: real,
                  centerX: real, titleY: real, lineHeight: real, titleHeight: real, d: Details)
    requires centerX == width / 2.0
    requires d == DetailsOf(width, height, titleY, titleHeight)
    requires width > 0.0 && height > 0.0 ==> lineHeight > 0.0
    requires titleHeight == BlockHeight(|titleCalls|, lineHeight)
    requires forall k :: 0 <= k < |titleCalls| ==>
      titleCalls[k].FillText? && titleCalls[k].x == centerX && titleCalls[k].y == LineY(titleY, k, lineHeight)
    ensures TextsCentred(titleCalls + DetailCalls(config, centerX, d), centerX)
    ensures width > 0.0 && height > 0.0 ==> BaselinesDescend(titleCalls + DetailCalls(config, centerX, d))
  {
    var details := DetailCalls(config, centerX, d);
    var log := titleCalls + details;
    assert forall i :: |titleCalls| <= i < |log| ==> log[i] == details[i - |titleCalls|];
    if width > 0.0 && height > 0.0 {
      BlockHeightIsProduct(|titleCalls|, lineHeight);
      MulNonNegative(|titleCalls|, lineHeight);
      BaselinesAreLinear(titleCalls, titleY, lineHeight);
      StackDescends(titleCalls, details, titleY, lineHeight, d.subtitleY, d.descriptionY, d.ctaY);
    }
  }

  /** Title lines `lineHeight` apart from `y` on, then four calls whose texts sit lower
      and lower below the title, descend all the way. */
  lemma StackDescends(title: seq<DrawCall>, details: seq<DrawCall>, y: real, lineHeight: real,
                      subtitleY: real, descriptionY: real, ctaY: real)
    requires lineHeight > 0.0
    requires forall k :: 0 <= k < |title| ==> title[k].FillText? && title[k].y == y + k as real * lineHeight
    requires |details| == 4 && details[2].RoundRect?
    requires details[0].FillText? && details[0].y == subtitleY
    requires details[1].FillText? && details[1].y == descriptionY
    requires details[3].FillText? && details[3].y == ctaY
    requires y + |title| as real * lineHeight < subtitleY < descriptionY < ctaY
    ensures BaselinesDescend(title + details)
  {
    var log, n := title + details, |title|;
    forall i, j | 0 <= i < j < |log| && log[i].FillText? && log[j].FillText?
      ensures log[i].y < log[j].y
    {
      if j < n {
        assert log[i] == title[i] && log[j] == title[j];
        MulStrict(i, j, lineHeight);
      } else if i < n {
        assert log[i] == title[i] && log[j] == details[j - n];
        MulStrict(i, n, lineHeight);
      } else {
        assert log[i] == details[i - n] && log[j] == details[j - n];
      }
    }
  }

  /** Calls whose baselines follow `LineY` are `lineHeight` apart from `y` on. */
  lemma BaselinesAreLinear(calls: seq<DrawCall>, y: real, lineHeight: real)
    requires forall k :: 0 <= k < |calls| ==> calls[k].FillText? && calls[k].y == LineY(y, k, lineHeight)
    ensures forall k :: 0 <= k < |calls| ==> calls[k].FillText? && calls[k].y == y + k as real * lineHeight
  {
    forall k | 0 <= k < |calls|
      ensures calls[k].FillText? && calls[k].y == y + k as real * lineHeight
    {
      LineYIsLinear(y, k, lineHeight);
    }
  }

  /** A non-negative number of lines takes a non-negative height. */
  lemma MulNonNegative(k: nat, lineHeight: real)
    requires lineHeight > 0.0
    ensures k as real * lineHeight >= 0.0
  {
  }

  /** One more line moves a baseline down by a positive amount. */
  lemma MulStrict(i: nat, j: nat, lineHeight: real)
    requires i < j && lineHeight > 0.0
    ensures i as real * lineHeight < j as real * lineHeight
  {
  }

  /** `generateCreative`: sizes the canvas for the format, draws the background photo
      cover-fitted, the logo, and the texts. The blurred redraw and the dark overlay are not
      recorded. */
  method GenerateCreative(config: Config, imageWidth: real, imageHeight: real, measure: string -> real)
    returns (canvas: Dimensions, log: seq<DrawCall>)
    requires imageWidth > 0.0 && imageHeight > 0.0
    ensures canvas == FormatDimensions(config.format)
    ensures log == [DrawImage(config.backgroundImage, CoverFit(imageWidth, imageHeight, canvas.width, canvas.height)),
                    DrawImage(LogoSrc, LogoRect(canvas.width, canvas.height, LogoY(canvas.height)))]
                   + TextCalls(config, canvas.width, canvas.height, measure)
    ensures BaselinesDescend(log) && TextsCentred(log, canvas.width / 2.0)
  {
    canvas := FormatDimensions(config.format);
    var drawRect := CoverFit(imageWidth, imageHeight, canvas.width, canvas.height);
    var background := DrawImage(config.backgroundImage, drawRect);
    var logoY := LogoY(canvas.height);
    var logo := DrawImage(LogoSrc, LogoRect(canvas.width, canvas.height, logoY));
    var text := DrawText(config, canvas.width, canvas.height, measure);
    log := [background, logo] + text;
    PicturesFirst([background, logo], text, canvas.width / 2.0);
  }

  /** Drawing pictures before the texts leaves the texts' order and centring as they were. */
  lemma PicturesFirst(pictures: seq<DrawCall>, texts: seq<DrawCall>, centerX: real)
    requires forall i :: 0 <= i < |pictures| ==> pictures[i].DrawImage?
    requires BaselinesDescend(texts) && TextsCentred(texts, centerX)
    ensures BaselinesDescend(pictures + texts) && TextsCentred(pictures + texts, centerX)
  {
    var log := pictures + texts;
    assert forall i :: |pictures| <= i < |log| ==> log[i] == texts[i - |pictures|];
  }
}

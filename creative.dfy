/** The generator's settings: the preset tables, the configuration record and the
    template button that overwrites its four texts. */
module Creative {

  /** The three output formats. */
  datatype Format = Square | Story | Landscape

  /** The four title sizes. */
  datatype TitleSize = Small | Medium | Large | ExtraLarge

  /** Canvas width and height of a format, in pixels. */
  datatype Dimensions = Dimensions(width: real, height: real)

  /** Nominal font size (at a 1080-pixel short side) and line-height factor of a title size. */
  datatype TitleFont = TitleFont(size: real, lineHeight: real)

  /** The four texts of a preset, with its identifier. */
  datatype Template = Template(id: string, title: string, subtitle: string, description: string, cta: string)

  /** A selectable background photo. */
  datatype BackgroundImage = BackgroundImage(id: string, src: string, name: string)

  /** Everything the form controls. Colours are kept as the CSS strings the form holds. */
  datatype Config = Config(
    backgroundImage: string,
    title: string,
    subtitle: string,
    description: string,
    cta: string,
    titleColor: string,
    subtitleColor: string,
    descriptionColor: string,
    ctaColor: string,
    ctaBgColor: string,
    titleSize: TitleSize,
    format: Format,
    blurIntensity: int)

  /** The `formatDimensions` table. */
  function FormatDimensions(format: Format): (d: Dimensions)
    ensures d.width >= 1080.0 && d.height >= 630.0
  {
    match format
    case Square => Dimensions(1080.0, 1080.0)
    case Story => Dimensions(1080.0, 1920.0)
    case Landscape => Dimensions(1200.0, 630.0)
  }

  /** The aspect ratio the preview pane gives each format in CSS. */
  function PreviewAspect(format: Format): (aspect: real)
  {
    match format
    case Square => 1.0 / 1.0
    case Story => 9.0 / 16.0
    case Landscape => 1200.0 / 630.0
  }

  /** The canvas a format renders to has exactly the shape its preview pane shows. */
  lemma CanvasMatchesPreview(format: Format)
    ensures var d := FormatDimensions(format); d.width / d.height == PreviewAspect(format)
  {
    match format
    case Square =>
    case Story => assert 1080.0 / 1920.0 == 9.0 / 16.0;
    case Landscape =>
  }

  /** The `titleSizes` table. */
  function TitleFontOf(size: TitleSize): (f: TitleFont)
    ensures 48.0 <= f.size <= 140.0
    ensures 1.1 <= f.lineHeight <= 1.2
  {
    match size
    case Small => TitleFont(48.0, 1.2)
    case Medium => TitleFont(64.0, 1.2)
    case Large => TitleFont(80.0, 1.1)
    case ExtraLarge => TitleFont(140.0, 1.1)
  }

  /** The sizes in the order the selector lists them. */
  function SizeRank(size: TitleSize): (rank: nat)
  {
    match size
    case Small => 0
    case Medium => 1
    case Large => 2
    case ExtraLarge => 3
  }

  /** A larger title size has a larger font and a larger line pitch (font size times
      factor). */
  lemma TitleFontsGrow(a: TitleSize, b: TitleSize)
    requires SizeRank(a) < SizeRank(b)
    ensures TitleFontOf(a).size < TitleFontOf(b).size
    ensures TitleFontOf(a).size * TitleFontOf(a).lineHeight < TitleFontOf(b).size * TitleFontOf(b).lineHeight
  {
  }

  /** The `backgroundImages` table. */
  const BackgroundImages: seq<BackgroundImage> := [
    BackgroundImage("cafe-coworking", "./images/yolk-workspace/cafe-style-coworking.webp", "Cafe Style Coworking"),
    BackgroundImage("collaborative", "./images/yolk-workspace/collaborative-workspace.webp", "Collaborative Workspace"),
    BackgroundImage("dedicated-desks", "./images/yolk-workspace/dedicated-desks.webp", "Dedicated Desks"),
    BackgroundImage("meeting-room", "./images/yolk-workspace/meeting-room.webp", "Meeting Room"),
    BackgroundImage("flexible-cafe", "./images/yolk-workspace/flexible-cafe-coworking.webp", "Flexible Cafe"),
    BackgroundImage("courtyard-events", "./images/yolk-workspace/courtyard-events.webp", "Courtyard Events"),
    BackgroundImage("community-1", "./images/yolk-workspace/community-event-1.jpg", "Community Event 1"),
    BackgroundImage("community-2", "./images/yolk-workspace/community-event-2.jpg", "Community Event 2"),
    BackgroundImage("community-3", "./images/yolk-workspace/community-event-3.jpg", "Community Event 3"),
    BackgroundImage("yolk-cafe", "./images/yolk-workspace/yolk-cafe.webp", "Yolk Cafe")
  ]

  /** The `textTemplates` table. */
  const Templates: seq<Template> := [
    Template("challenge-program", "AI Challenge Program", "Join the first cohort of Yolk Lab",
             "August - October 2025 • Kraków", "Apply Now"),
    Template("grown-not-born", "Grown, Not Born", "Where AI startups accelerate",
             "12-week intensive program", "Learn More"),
    Template("community", "Join Our Community", "15 Selected Founders",
             "AI-powered startup accelerator", "Apply Today"),
    Template("custom", "Custom Text", "Your subtitle here", "Your description here", "Your CTA")
  ]

  /** The configuration the page starts with: the first photo, the first template's texts,
      white title, yellow subtitle and button, extra-large title, square format, 8 px blur.
      It shows the first photo of the selector and the first template's texts. */
  function InitialConfig(): (c: Config)
    ensures c.backgroundImage == BackgroundImages[0].src
    ensures ShowsTemplate(c, Templates[0])
  {
    Config(
      BackgroundImages[0].src,
      Templates[0].title, Templates[0].subtitle, Templates[0].description, Templates[0].cta,
      "#ffffff", "#F6D55C", "#e5e7eb", "#1a1a1a", "#F6D55C",
      ExtraLarge, Square, 8)
  }

  /** `applyTemplate`: the previous configuration with its four texts taken from `t`. */
  function ApplyTemplate(prev: Config, t: Template): (c: Config)
    ensures c.title == t.title && c.subtitle == t.subtitle && c.description == t.description && c.cta == t.cta
    ensures SameStyling(c, prev)
  {
    prev.(title := t.title, subtitle := t.subtitle, description := t.description, cta := t.cta)
  }

  /** Two configurations that agree on everything but the four texts. */
  predicate SameStyling(a: Config, b: Config)
  {
    && a.backgroundImage == b.backgroundImage
    && a.titleColor == b.titleColor
    && a.subtitleColor == b.subtitleColor
    && a.descriptionColor == b.descriptionColor
    && a.ctaColor == b.ctaColor
    && a.ctaBgColor == b.ctaBgColor
    && a.titleSize == b.titleSize
    && a.format == b.format
    && a.blurIntensity == b.blurIntensity
  }

  /** Whether a configuration is showing exactly the texts of `t`. */
  predicate ShowsTemplate(c: Config, t: Template)
  {
    c.title == t.title && c.subtitle == t.subtitle && c.description == t.description && c.cta == t.cta
  }

  /** A configuration is determined by its styling and its four texts: applying a template
      is the only configuration with `prev`'s styling that shows that template. */
  lemma ApplyTemplateUnique(prev: Config, t: Template, c: Config)
    ensures (SameStyling(c, prev) && ShowsTemplate(c, t)) <==> c == ApplyTemplate(prev, t)
  {
  }

  /** Applying a template twice changes nothing more, and a second template overrides the first. */
  lemma ApplyTemplateLastWins(prev: Config, first: Template, second: Template)
    ensures ApplyTemplate(ApplyTemplate(prev, first), second) == ApplyTemplate(prev, second)
    ensures ApplyTemplate(ApplyTemplate(prev, first), first) == ApplyTemplate(prev, first)
  {
  }

  /** The page opens showing the first template: choosing it first changes nothing, and
      choosing any other template changes the configuration. */
  lemma InitialShowsFirstTemplate()
    ensures ApplyTemplate(InitialConfig(), Templates[0]) == InitialConfig()
    ensures forall i :: 1 <= i < |Templates| ==> ApplyTemplate(InitialConfig(), Templates[i]) != InitialConfig()
  {
  }
}

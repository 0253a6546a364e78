/**
 * Theme derivation from a brand (vsskin-app/src/lib/themeGenerator.ts): the
 * per-token colour recipe, the category tags, and the assembly of a Theme.
 */
module ThemeGenerator {
  import opened Wrappers
  import opened Builtins
  import opened ColorMath
  import opened Types

  datatype Style = Minimal | Vibrant | Professional

  function StyleName(s: Style): (name: string)
    ensures name == "minimal" <==> s == Minimal
    ensures name == "vibrant" <==> s == Vibrant
    ensures name == "professional" <==> s == Professional
  {
    match s
    case Minimal => "minimal"
    case Vibrant => "vibrant"
    case Professional => "professional"
  }

  datatype AccentIntensity = Subtle | Medium | Bold

  /** What `generateThemeFromBrand` is asked for (`ThemeGenerationOptions`). */
  datatype GenerationOptions = GenerationOptions(variant: Variant, style: Style, accentIntensity: AccentIntensity)

  /** The options used when the caller gives none. */
  const DefaultOptions := GenerationOptions(Dark, Professional, Medium)

  /** The brightness factor of the accent tokens; stronger intensities are brighter. */
  function IntensityMultiplier(i: AccentIntensity): (m: real)
    ensures 0.0 < m < 1.0
  {
    match i
    case Subtle => 0.3
    case Medium => 0.6
    case Bold => 0.9
  }

  /** The editor background: the primary colour nearly black, or the accent nearly white. */
  function BaseBackground(c: BrandColors, v: Variant): string
  {
    if v == Dark then Darken(c.primary, 0.9) else Lighten(c.accent, 0.95)
  }

  /** The editor foreground: the accent lightened, or the primary colour darkened. */
  function BaseForeground(c: BrandColors, v: Variant): string
  {
    if v == Dark then Lighten(c.accent, 0.9) else Darken(c.primary, 0.1)
  }

  /**
   * Both base colours are canonical hex whatever the brand's colours are; a dark
   * background is no brighter than the primary colour and a light one no darker
   * than the accent, and the foregrounds go the other way.
   */
  lemma BaseColors(c: BrandColors, v: Variant)
    ensures IsCanonicalHex(BaseBackground(c, v)) && IsCanonicalHex(BaseForeground(c, v))
    ensures v == Dark ==> (NoBrighter(HexToRgb(BaseBackground(c, v)), HexToRgb(c.primary))
      && NoBrighter(HexToRgb(c.accent), HexToRgb(BaseForeground(c, v))))
    ensures v == Light ==> (NoBrighter(HexToRgb(c.accent), HexToRgb(BaseBackground(c, v)))
      && NoBrighter(HexToRgb(BaseForeground(c, v)), HexToRgb(c.primary)))
  {
    if v == Dark {
      DarkenDims(c.primary, 0.9);
      LightenRaises(c.accent, 0.9);
    } else {
      LightenRaises(c.accent, 0.95);
      DarkenDims(c.primary, 0.1);
    }
  }

  /**
   * How `generateThemeColors` computes one colour from the brand's colours: a
   * literal, one of the brand colours or base colours, a colour helper applied
   * to another paint, or a choice between two paints by variant.
   */
  datatype Paint =
    | Fixed(text: string)
    | Primary
    | Secondary
    | Accent
    | Background
    | Foreground
    | Darkened(base: Paint, factor: real)
    | Lightened(base: Paint, factor: real)
    | Brightened(base: Paint, factor: real)
      /** `adjustBrightness` by the intensity multiplier, or by four fifths of it when `dimmed`. */
    | Intensified(base: Paint, dimmed: bool)
    | Faded(base: Paint, opacity: real)
    | HueShifted(base: Paint, degrees: int)
      /** `isDark ? dark : light`. */
    | ByVariant(dark: Paint, light: Paint)

  /**
   * `adjustHue`, which rotates a colour's hue through HSL in floating point; the
   * model takes it as a parameter and assumes nothing about it.
   */
  type HueRotation = (string, int) -> string

  /** A paint whose last step rewrites the colour through RGB with a factor the helper accepts. */
  predicate Rewrites(p: Paint) {
    match p
    case Background => true
    case Foreground => true
    case Darkened(_, f) => 0.0 <= f <= 1.0
    case Lightened(_, f) => 0.0 <= f <= 1.0
    case Brightened(_, f) => 0.0 <= f
    case Intensified(_, _) => true
    case _ => false
  }

  /** A paint that rewrites through RGB in either variant. */
  predicate Recomputed(p: Paint) {
    match p
    case ByVariant(d, l) => Rewrites(d) && Rewrites(l)
    case _ => Rewrites(p)
  }

  /** The colour a paint stands for, given the brand's colours, the variant and the intensity multiplier `m`. */
  function Render(c: BrandColors, v: Variant, m: real, p: Paint, hue: HueRotation): string {
    match p
    case Fixed(text) => text
    case Primary => c.primary
    case Secondary => c.secondary
    case Accent => c.accent
    case Background => BaseBackground(c, v)
    case Foreground => BaseForeground(c, v)
    case Darkened(q, f) => Darken(Render(c, v, m, q, hue), f)
    case Lightened(q, f) => Lighten(Render(c, v, m, q, hue), f)
    case Brightened(q, f) => AdjustBrightness(Render(c, v, m, q, hue), f)
    case Intensified(q, dimmed) => AdjustBrightness(Render(c, v, m, q, hue), if dimmed then m * 0.8 else m)
    case Faded(q, a) => AdjustOpacity(Render(c, v, m, q, hue), a)
    case HueShifted(q, d) => hue(Render(c, v, m, q, hue), d)
    case ByVariant(d, l) => Render(c, v, m, if v == Dark then d else l, hue)
  }

  lemma RewriteCanonical(c: BrandColors, v: Variant, m: real, p: Paint, hue: HueRotation)
    requires Rewrites(p) && 0.0 <= m
    ensures IsCanonicalHex(Render(c, v, m, p, hue))
  {
    match p
    case Background => BaseColors(c, v);
    case Foreground => BaseColors(c, v);
    case Darkened(q, f) => DarkenDims(Render(c, v, m, q, hue), f);
    case Lightened(q, f) => LightenRaises(Render(c, v, m, q, hue), f);
    case Brightened(q, f) => BrightnessBounds(Render(c, v, m, q, hue), f);
    case Intensified(q, dimmed) => BrightnessBounds(Render(c, v, m, q, hue), if dimmed then m * 0.8 else m);
  }

  /** A paint whose last step goes through RGB renders to a canonical colour, whatever the brand's colours are. */
  lemma RenderCanonical(c: BrandColors, v: Variant, m: real, p: Paint, hue: HueRotation)
    requires Recomputed(p) && 0.0 <= m
    ensures IsCanonicalHex(Render(c, v, m, p, hue))
  {
    match p
    case ByVariant(d, l) => RewriteCanonical(c, v, m, if v == Dark then d else l, hue);
    case _ => RewriteCanonical(c, v, m, p, hue);
  }

  const BlackHex := "#000000"
  const WhiteHex := "#FFFFFF"
  const RedHex := "#FF0000"

  /**
   * The entry of the object literal of `generateThemeColors` for token `t`, or
   * None for a token it does not set. The paints read the variant and the
   * intensity multiplier, and nothing else of the options.
   */
  function Recipe(t: Token): Option<Paint> {
    match t
    case EditorBackground => Some(Background)
    case EditorForeground => Some(Foreground)
    case EditorSelectionBackground => Some(Faded(Primary, 0.3))
    case EditorLineHighlightBackground => Some(Faded(Primary, 0.1))
    case EditorFindMatchBackground => Some(Faded(Primary, 0.4))
    case EditorFindMatchHighlightBackground => Some(Faded(Primary, 0.2))
    case ActivityBarBackground => Some(ByVariant(Darkened(Primary, 0.8), Lightened(Primary, 0.9)))
    case ActivityBarForeground => Some(Intensified(Primary, false))
    case ActivityBarInactiveForeground => Some(Faded(Intensified(Primary, false), 0.6))
    case ActivityBarActiveBorder => Some(Primary)
    case ActivityBarBadgeBackground => Some(Primary)
    case ActivityBarBadgeForeground => Some(ByVariant(Fixed(WhiteHex), Fixed(BlackHex)))
    case SideBarBackground => Some(ByVariant(Darkened(Primary, 0.85), Lightened(Primary, 0.95)))
    case SideBarForeground => Some(Foreground)
    case SideBarBorder => Some(Faded(Primary, 0.2))
    case SideBarTitleForeground => Some(Intensified(Primary, false))
    case SideBarSectionHeaderBackground => Some(Faded(Primary, 0.1))
    case SideBarSectionHeaderForeground => Some(Intensified(Primary, false))
    case StatusBarBackground => Some(Intensified(Primary, true))
    case StatusBarForeground => Some(ByVariant(Fixed(WhiteHex), Fixed(BlackHex)))
    case StatusBarBorder => Some(Faded(Primary, 0.3))
    case StatusBarItemHoverBackground => Some(Faded(Fixed(WhiteHex), 0.1))
    case StatusBarItemProminentBackground => Some(Secondary)
    case StatusBarItemProminentForeground => Some(ByVariant(Fixed(WhiteHex), Fixed(BlackHex)))
    case TitleBarActiveBackground => Some(ByVariant(Darkened(Primary, 0.8), Lightened(Primary, 0.9)))
    case TitleBarActiveForeground => Some(Foreground)
    case TitleBarInactiveBackground => Some(Faded(ByVariant(Darkened(Primary, 0.8), Lightened(Primary, 0.9)), 0.8))
    case TitleBarInactiveForeground => Some(Faded(Foreground, 0.6))
    case TitleBarBorder => Some(Faded(Primary, 0.2))
    case TabActiveBackground => Some(Background)
    case TabActiveForeground => Some(Foreground)
    case TabActiveBorder => Some(Primary)
    case TabInactiveBackground => Some(Faded(Background, 0.8))
    case TabInactiveForeground => Some(Faded(Foreground, 0.7))
    case TabBorder => Some(Faded(Primary, 0.2))
    case PanelBackground => Some(Background)
    case PanelBorder => Some(Faded(Primary, 0.2))
    case PanelTitleActiveForeground => Some(Intensified(Primary, false))
    case PanelTitleInactiveForeground => Some(Faded(Foreground, 0.7))
    case TerminalBackground => Some(Background)
    case TerminalForeground => Some(Foreground)
    case TerminalAnsiBlack => Some(ByVariant(Fixed(BlackHex), Fixed(WhiteHex)))
    case TerminalAnsiRed => Some(HueShifted(Primary, 0))
    case TerminalAnsiGreen => Some(HueShifted(Primary, 120))
    case TerminalAnsiYellow => Some(HueShifted(Primary, 60))
    case TerminalAnsiBlue => Some(HueShifted(Primary, 240))
    case TerminalAnsiMagenta => Some(HueShifted(Primary, 300))
    case TerminalAnsiCyan => Some(HueShifted(Primary, 180))
    case TerminalAnsiWhite => Some(ByVariant(Fixed(WhiteHex), Fixed(BlackHex)))
    case ScrollbarShadow => Some(Faded(Fixed(BlackHex), 0.3))
    case ScrollbarSliderBackground => Some(Faded(Primary, 0.3))
    case ScrollbarSliderHoverBackground => Some(Faded(Primary, 0.5))
    case ScrollbarSliderActiveBackground => Some(Faded(Primary, 0.7))
    case ButtonBackground => Some(Primary)
    case ButtonForeground => Some(ByVariant(Fixed(WhiteHex), Fixed(BlackHex)))
    case ButtonHoverBackground => Some(Brightened(Primary, 1.1))
    case ButtonSecondaryBackground => Some(Secondary)
    case ButtonSecondaryForeground => Some(ByVariant(Fixed(WhiteHex), Fixed(BlackHex)))
    case ButtonSecondaryHoverBackground => Some(Brightened(Secondary, 1.1))
    case InputBackground => Some(ByVariant(Darkened(Background, 0.5), Lightened(Background, 0.5)))
    case InputForeground => Some(Foreground)
    case InputBorder => Some(Faded(Primary, 0.3))
    case InputOptionActiveBorder => Some(Primary)
    case InputValidationErrorBackground => Some(Faded(Fixed(RedHex), 0.1))
    case InputValidationErrorBorder => Some(Fixed(RedHex))
    case DropdownBackground => Some(ByVariant(Darkened(Background, 0.5), Lightened(Background, 0.5)))
    case DropdownForeground => Some(Foreground)
    case DropdownBorder => Some(Faded(Primary, 0.3))
    case ListActiveSelectionBackground => Some(Faded(Primary, 0.3))
    case ListActiveSelectionForeground => Some(Foreground)
    case ListInactiveSelectionBackground => Some(Faded(Primary, 0.2))
    case ListHoverBackground => Some(Faded(Primary, 0.1))
    case ListFocusBackground => Some(Faded(Primary, 0.2))
    case BadgeBackground => Some(Primary)
    case BadgeForeground => Some(ByVariant(Fixed(WhiteHex), Fixed(BlackHex)))
    case ProgressBarBackground => Some(Primary)
    case NotificationCenterBorder => Some(Faded(Primary, 0.3))
    case NotificationCenterHeaderBackground => Some(Faded(Primary, 0.1))
    case NotificationToastBorder => Some(Faded(Primary, 0.3))
    case NotificationsBackground => Some(Background)
    case NotificationsForeground => Some(Foreground)
    case NotificationsBorder => Some(Faded(Primary, 0.3))
    case ExtensionButtonProminentBackground => Some(Primary)
    case ExtensionButtonProminentForeground => Some(ByVariant(Fixed(WhiteHex), Fixed(BlackHex)))
    case ExtensionButtonProminentHoverBackground => Some(Brightened(Primary, 1.1))
    case PeekViewBorder => Some(Primary)
    case PeekViewEditorBackground => Some(Background)
    case PeekViewTitleBackground => Some(Faded(Primary, 0.1))
    case GitDecorationModifiedResourceForeground => Some(HueShifted(Primary, 60))
    case GitDecorationDeletedResourceForeground => Some(HueShifted(Primary, 0))
    case GitDecorationAddedResourceForeground => Some(HueShifted(Primary, 120))
    case GitDecorationUntrackedResourceForeground => Some(HueShifted(Primary, 180))
    case MenuBackground => Some(Background)
    case MenuForeground => Some(Foreground)
    case MenuSelectionBackground => Some(Faded(Primary, 0.2))
    case MenuSelectionForeground => Some(Foreground)
    case MenuSeparatorBackground => Some(Faded(Primary, 0.2))
    case EditorWidgetBackground => Some(ByVariant(Darkened(Background, 0.3), Lightened(Background, 0.3)))
    case EditorWidgetBorder => Some(Faded(Primary, 0.3))
    case EditorHoverWidgetBackground => Some(ByVariant(Darkened(Background, 0.3), Lightened(Background, 0.3)))
    case EditorHoverWidgetBorder => Some(Faded(Primary, 0.3))
    case MinimapBackground => Some(Background)
    case MinimapSliderBackground => Some(Faded(Primary, 0.2))
    case MinimapSliderHoverBackground => Some(Faded(Primary, 0.3))
    case MinimapSliderActiveBackground => Some(Faded(Primary, 0.4))
    case _ => None
  }

  /** `generateThemeColors`: the token map built from the brand's three colours. */
  function GenerateThemeColors(brand: Brand, o: GenerationOptions, hue: HueRotation): ThemeColors {
    var m := IntensityMultiplier(o.accentIntensity);
    map t: Token | Recipe(t).Some? :: Render(brand.colors, o.variant, m, Recipe(t).value, hue)
  }

  /** The colour the recipe gives token `t` under options `o`. */
  function PaintOf(brand: Brand, o: GenerationOptions, p: Paint, hue: HueRotation): string {
    Render(brand.colors, o.variant, IntensityMultiplier(o.accentIntensity), p, hue)
  }

  /** A paint chosen by variant renders as the paint for the options' variant. */
  lemma VariantChoice(brand: Brand, o: GenerationOptions, hue: HueRotation, d: Paint, l: Paint)
    ensures PaintOf(brand, o, ByVariant(d, l), hue) == PaintOf(brand, o, if o.variant == Dark then d else l, hue)
  {
  }

  /** The generated map holds the ten tokens every theme must define. */
  lemma GeneratedCoreTokens(brand: Brand, o: GenerationOptions, hue: HueRotation)
    ensures HasCoreTokens(GenerateThemeColors(brand, o, hue))
  {
    assert Recipe(EditorBackground).Some? && Recipe(EditorForeground).Some?;
    assert Recipe(ActivityBarBackground).Some? && Recipe(ActivityBarForeground).Some?;
    assert Recipe(SideBarBackground).Some? && Recipe(SideBarForeground).Some?;
    assert Recipe(StatusBarBackground).Some? && Recipe(StatusBarForeground).Some?;
    assert Recipe(TitleBarActiveBackground).Some? && Recipe(TitleBarActiveForeground).Some?;
  }

  /** A token the recipe sets is in the map, with the colour its paint renders to. */
  lemma ColorOf(brand: Brand, o: GenerationOptions, hue: HueRotation, t: Token, p: Paint)
    requires Recipe(t) == Some(p)
    ensures t in GenerateThemeColors(brand, o, hue)
    ensures GenerateThemeColors(brand, o, hue)[t] == PaintOf(brand, o, p, hue)
  {
  }

  /** Every colour in the map whose recipe goes through RGB last is canonical hex. */
  lemma RecomputedColors(brand: Brand, o: GenerationOptions, hue: HueRotation, t: Token)
    requires Recipe(t).Some? && Recomputed(Recipe(t).value)
    ensures t in GenerateThemeColors(brand, o, hue) && IsCanonicalHex(GenerateThemeColors(brand, o, hue)[t])
  {
    RenderCanonical(brand.colors, o.variant, IntensityMultiplier(o.accentIntensity), Recipe(t).value, hue);
  }

  // One recipe entry per lemma: evaluating the recipe at several tokens in one
  // proof is far slower than one at a time.

  lemma EditorBackgroundRecipe()
    ensures Recipe(EditorBackground) == Some(Background)
  {
  }

  lemma TabActiveBackgroundRecipe()
    ensures Recipe(TabActiveBackground) == Some(Background)
  {
  }

  lemma PanelBackgroundRecipe()
    ensures Recipe(PanelBackground) == Some(Background)
  {
  }

  lemma TerminalBackgroundRecipe()
    ensures Recipe(TerminalBackground) == Some(Background)
  {
  }

  lemma NotificationsBackgroundRecipe()
    ensures Recipe(NotificationsBackground) == Some(Background)
  {
  }

  lemma MinimapBackgroundRecipe()
    ensures Recipe(MinimapBackground) == Some(Background)
  {
  }

  lemma PeekViewEditorBackgroundRecipe()
    ensures Recipe(PeekViewEditorBackground) == Some(Background)
  {
  }

  lemma MenuBackgroundRecipe()
    ensures Recipe(MenuBackground) == Some(Background)
  {
  }

  /**
   * Editor, tab, panel, terminal, notification, peek, menu and minimap backgrounds
   * share one colour: the primary colour darkened by 0.9 for a dark theme, the
   * accent lightened by 0.95 for a light one.
   */
  lemma SharedBackground(brand: Brand, o: GenerationOptions, hue: HueRotation)
    ensures var colors := GenerateThemeColors(brand, o, hue);
      var base := if o.variant == Dark then Darken(brand.colors.primary, 0.9) else Lighten(brand.colors.accent, 0.95);
      && EditorBackground in colors && colors[EditorBackground] == base
      && TabActiveBackground in colors && colors[TabActiveBackground] == base
      && PanelBackground in colors && colors[PanelBackground] == base
      && TerminalBackground in colors && colors[TerminalBackground] == base
      && NotificationsBackground in colors && colors[NotificationsBackground] == base
      && MinimapBackground in colors && colors[MinimapBackground] == base
      && PeekViewEditorBackground in colors && colors[PeekViewEditorBackground] == base
      && MenuBackground in colors && colors[MenuBackground] == base
  {
    EditorBackgroundRecipe();
    TabActiveBackgroundRecipe();
    PanelBackgroundRecipe();
    TerminalBackgroundRecipe();
    NotificationsBackgroundRecipe();
    MinimapBackgroundRecipe();
    PeekViewEditorBackgroundRecipe();
    MenuBackgroundRecipe();
    ColorOf(brand, o, hue, EditorBackground, Background);
    ColorOf(brand, o, hue, TabActiveBackground, Background);
    ColorOf(brand, o, hue, PanelBackground, Background);
    ColorOf(brand, o, hue, TerminalBackground, Background);
    ColorOf(brand, o, hue, NotificationsBackground, Background);
    ColorOf(brand, o, hue, MinimapBackground, Background);
    ColorOf(brand, o, hue, PeekViewEditorBackground, Background);
    ColorOf(brand, o, hue, MenuBackground, Background);
  }

  lemma AnsiBlackRecipe()
    ensures Recipe(TerminalAnsiBlack) == Some(ByVariant(Fixed(BlackHex), Fixed(WhiteHex)))
  {
  }

  lemma AnsiWhiteRecipe()
    ensures Recipe(TerminalAnsiWhite) == Some(ByVariant(Fixed(WhiteHex), Fixed(BlackHex)))
  {
  }

  /** The terminal's black and white swap places between the dark and the light variant. */
  lemma AnsiSwap(brand: Brand, o: GenerationOptions, hue: HueRotation)
    ensures var colors := GenerateThemeColors(brand, o, hue);
      && TerminalAnsiBlack in colors && TerminalAnsiWhite in colors
      && colors[TerminalAnsiBlack] == (if o.variant == Dark then "#000000" else "#FFFFFF")
      && colors[TerminalAnsiWhite] == (if o.variant == Dark then "#FFFFFF" else "#000000")
  {
    var black, white := ByVariant(Fixed(BlackHex), Fixed(WhiteHex)), ByVariant(Fixed(WhiteHex), Fixed(BlackHex));
    AnsiBlackRecipe();
    AnsiWhiteRecipe();
    ColorOf(brand, o, hue, TerminalAnsiBlack, black);
    ColorOf(brand, o, hue, TerminalAnsiWhite, white);
    VariantChoice(brand, o, hue, Fixed(BlackHex), Fixed(WhiteHex));
    VariantChoice(brand, o, hue, Fixed(WhiteHex), Fixed(BlackHex));
  }

  /** The colours depend on the variant and the accent intensity, never on the style. */
  lemma StyleIrrelevant(brand: Brand, o1: GenerationOptions, o2: GenerationOptions, hue: HueRotation)
    requires o1.variant == o2.variant && o1.accentIntensity == o2.accentIntensity
    ensures GenerateThemeColors(brand, o1, hue) == GenerateThemeColors(brand, o2, hue)
  {
  }

  // ------------------------------------------------------------------ tags

  /** The four brand categories with a domain list each. */
  datatype Category = Entertainment | Development | Communication | Finance

  function CategoryDomains(c: Category): seq<string> {
    match c
    case Entertainment => ["spotify.com", "apple.com", "youtube.com"]
    case Development => ["github.com", "figma.com", "linear.app"]
    case Communication => ["slack.com", "discord.com", "zoom.com"]
    case Finance => ["stripe.com", "paypal.com", "coinbase.com"]
  }

  function CategoryTagPair(c: Category): seq<string> {
    match c
    case Entertainment => ["entertainment", "media"]
    case Development => ["development", "productivity"]
    case Communication => ["communication", "collaboration"]
    case Finance => ["finance", "payments"]
  }

  /** The pair of one category if the domain is in its list, nothing otherwise. */
  function TagsIfListed(c: Category, domain: string): seq<string> {
    if domain in CategoryDomains(c) then CategoryTagPair(c) else []
  }

  /** The category tags of a domain: each of the four lists checked in turn. */
  function CategoryTags(domain: string): seq<string> {
    TagsIfListed(Entertainment, domain) + TagsIfListed(Development, domain)
    + TagsIfListed(Communication, domain) + TagsIfListed(Finance, domain)
  }

  /** `generateTagsFromBrand`: push the pair of every list that holds the domain. */
  method GenerateTagsFromBrand(brand: Brand) returns (tags: seq<string>)
    ensures tags == CategoryTags(brand.domain)
  {
    tags := [];
    if brand.domain in ["spotify.com", "apple.com", "youtube.com"] {
      tags := tags + ["entertainment", "media"];
    }
    if brand.domain in ["github.com", "figma.com", "linear.app"] {
      tags := tags + ["development", "productivity"];
    }
    if brand.domain in ["slack.com", "discord.com", "zoom.com"] {
      tags := tags + ["communication", "collaboration"];
    }
    if brand.domain in ["stripe.com", "paypal.com", "coinbase.com"] {
      tags := tags + ["finance", "payments"];
    }
  }

  /** The domain lists are disjoint. */
  lemma DomainListsDisjoint(c: Category, d: Category, domain: string)
    requires domain in CategoryDomains(c) && domain in CategoryDomains(d)
    ensures c == d
  {
  }

  /** A listed domain gets exactly its category's two tags; any other domain gets none. */
  lemma {:induction false} CategoryTagsOfDomain(domain: string)
    ensures forall c: Category :: domain in CategoryDomains(c) ==> CategoryTags(domain) == CategoryTagPair(c)
    ensures (forall c: Category :: domain !in CategoryDomains(c)) ==> CategoryTags(domain) == []
  {
    forall c: Category | domain in CategoryDomains(c)
      ensures CategoryTags(domain) == CategoryTagPair(c)
    {
      forall d: Category | d != c ensures TagsIfListed(d, domain) == [] {
        if domain in CategoryDomains(d) {
          DomainListsDisjoint(c, d, domain);
        }
      }
      assert TagsIfListed(c, domain) == CategoryTagPair(c);
    }
    if forall c: Category :: domain !in CategoryDomains(c) {
      assert TagsIfListed(Entertainment, domain) == [];
      assert TagsIfListed(Development, domain) == [];
      assert TagsIfListed(Communication, domain) == [];
      assert TagsIfListed(Finance, domain) == [];
    }
  }

  // -------------------------------------------------------------- assembly

  /** `capitalizeFirst`: the first character upper-cased, the rest kept. */
  function CapitalizeFirst(str: string): (r: string)
    ensures |r| == |str| && (str != [] ==> r[1..] == str[1..])
    ensures str != [] ==> !('a' <= r[0] <= 'z')
    ensures ToLower(r) == ToLower(str)
  {
    if str == [] then []
    else
      var r := [UpperChar(str[0])] + str[1..];
      assert LowerChar(r[0]) == LowerChar(str[0]);
      assert forall i | 0 <= i < |r| :: LowerChar(r[i]) == LowerChar(str[i]);
      r
  }

  /** The theme id: brand id, variant and style joined by dashes. */
  function ThemeId(brandId: string, o: GenerationOptions): string {
    brandId + "-" + VariantName(o.variant) + "-" + StyleName(o.style)
  }

  /** Different variant or style means a different id for the same brand. */
  lemma ThemeIdInjective(brandId: string, o1: GenerationOptions, o2: GenerationOptions)
    requires ThemeId(brandId, o1) == ThemeId(brandId, o2)
    ensures o1.variant == o2.variant && o1.style == o2.style
  {
    var prefix := brandId + "-";
    var v1, v2 := VariantName(o1.variant), VariantName(o2.variant);
    var s1, s2 := StyleName(o1.style), StyleName(o2.style);
    var id1, id2 := ThemeId(brandId, o1), ThemeId(brandId, o2);
    assert id1 == prefix + (v1 + "-" + s1);
    assert id2 == prefix + (v2 + "-" + s2);
    assert id1[|prefix|] == v1[0] && id2[|prefix|] == v2[0];
    assert o1.variant == o2.variant;
    var k := |prefix| + |v1| + 1;
    assert id1[k] == s1[0];
    assert id2[k] == s2[0];
  }

  /** The theme name: brand display name, `Dark` or `Light`, capitalised style. */
  function ThemeName(brand: Brand, o: GenerationOptions): string {
    brand.displayName + " " + (if o.variant == Dark then "Dark" else "Light") + " "
    + CapitalizeFirst(StyleName(o.style))
  }

  function ThemeDescription(brand: Brand, o: GenerationOptions): string {
    "A " + VariantName(o.variant) + " VS Code theme inspired by " + brand.displayName
    + " brand colors and design language."
  }

  /** `generateThemeMetadata`; `now` stands for the clock read of `lastUpdated`. */
  function GenerateThemeMetadata(brand: Brand, o: GenerationOptions, now: string): (md: ThemeMetadata)
    ensures md.rating == 0.0 && md.downloads == 0 && md.tags == []
    ensures md.lastUpdated == now && md.description == Some(ThemeDescription(brand, o))
  {
    ThemeMetadata(
      version := "1.0.0",
      author := "vsskin Theme Generator",
      tags := [],
      downloads := 0,
      rating := 0.0,
      lastUpdated := now,
      compatibility := ["1.70.0", "1.80.0", "1.90.0"],
      preview := Some("#000000,#000000,#000000,#000000"),
      description := Some(ThemeDescription(brand, o)),
      repository := Some("https://github.com/vsskin/themes"))
  }

  /** `generateThemeFromBrand`, with `now` for the clock. */
  function GenerateThemeFromBrand(brand: Brand, o: GenerationOptions, now: string, hue: HueRotation): (theme: Theme)
    ensures theme.id == ThemeId(brand.id, o) && theme.themeType == o.variant
    ensures theme.name == theme.displayName == ThemeName(brand, o) && theme.brand == brand
    ensures theme.colors == GenerateThemeColors(brand, o, hue)
    ensures |theme.tags| >= 3
    ensures theme.tags[..3] == [VariantName(o.variant), StyleName(o.style), ToLower(brand.displayName)]
    ensures theme.tags[3..] == CategoryTags(brand.domain)
    ensures theme.metadata.rating == 0.0 && theme.metadata.downloads == 0
  {
    GeneratedCoreTokens(brand, o, hue);
    var colors := GenerateThemeColors(brand, o, hue);
    var tags := [VariantName(o.variant), StyleName(o.style), ToLower(brand.displayName)] + CategoryTags(brand.domain);
    Theme(
      id := ThemeId(brand.id, o),
      name := ThemeName(brand, o),
      displayName := ThemeName(brand, o),
      description := ThemeDescription(brand, o),
      brand := brand,
      colors := colors,
      themeType := o.variant,
      tags := tags,
      preview := ThemePreview([], [],
        colors[EditorBackground] + "," + colors[SideBarBackground] + "," + colors[ActivityBarBackground]
        + "," + colors[StatusBarBackground]),
      installation := ThemeInstallation("#", [], None, None),
      metadata := GenerateThemeMetadata(brand, o, now))
  }

  /** The four option sets of `generateThemeVariants`, in order. */
  const VariantOptions: seq<GenerationOptions> := [
    GenerationOptions(Dark, Professional, Medium),
    GenerationOptions(Light, Professional, Medium),
    GenerationOptions(Dark, Vibrant, Bold),
    GenerationOptions(Light, Minimal, Subtle)
  ]

  /** `generateThemeVariants`: one theme per option set. */
  function GenerateThemeVariants(brand: Brand, now: string, hue: HueRotation): (themes: seq<Theme>)
    ensures |themes| == |VariantOptions| == 4
    ensures forall i | 0 <= i < 4 :: themes[i] == GenerateThemeFromBrand(brand, VariantOptions[i], now, hue)
  {
    seq(|VariantOptions|, i requires 0 <= i < |VariantOptions| => GenerateThemeFromBrand(brand, VariantOptions[i], now, hue))
  }

  /** The four option sets give four different ids for any brand id. */
  lemma VariantIdsDistinct(brandId: string)
    ensures forall i, j | 0 <= i < j < |VariantOptions| :: ThemeId(brandId, VariantOptions[i]) != ThemeId(brandId, VariantOptions[j])
  {
    forall i, j | 0 <= i < j < |VariantOptions|
      ensures ThemeId(brandId, VariantOptions[i]) != ThemeId(brandId, VariantOptions[j])
    {
      if ThemeId(brandId, VariantOptions[i]) == ThemeId(brandId, VariantOptions[j]) {
        ThemeIdInjective(brandId, VariantOptions[i], VariantOptions[j]);
      }
    }
  }

  /** The four variants of a brand have four different ids: two dark themes and two light ones. */
  lemma VariantsDistinct(brand: Brand, now: string, hue: HueRotation)
    ensures var themes := GenerateThemeVariants(brand, now, hue);
      && (forall i, j | 0 <= i < j < 4 :: themes[i].id != themes[j].id)
      && themes[0].themeType == themes[2].themeType == Dark
      && themes[1].themeType == themes[3].themeType == Light
  {
    VariantIdsDistinct(brand.id);
  }
}

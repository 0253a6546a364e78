/**
 * The VSIX exporter (vsskin-app/src/lib/vsixExporter.ts): the extension
 * manifest, the colour-theme document with its derived colours and syntax
 * rules, the README and CHANGELOG texts, and the archive layout.
 */
module VsixExporter {
  import opened Wrappers
  import opened Builtins
  import opened Types
  import opened Documents
  import opened ColorMath

  // ------------------------------------------------------------------ options

  /** The export options; every member may be left out. */
  datatype VsixOptions = VsixOptions(
    publisher: Option<string>,
    version: Option<string>,
    displayName: Option<string>,
    description: Option<string>,
    repository: Option<string>,
    homepage: Option<string>,
    license: Option<string>)

  const DefaultVersion := "1.0.0"
  const DefaultRepository := "https://github.com/vsskin/themes"
  const Black := "#000000"
  const White := "#ffffff"

  // ------------------------------------------------------------ adjustColor

  /** The clamp of `adjustColor`: below 1 becomes 0, 255 and above become 255. */
  function ClampByte(x: int): (c: int)
    ensures IsByte(c)
    ensures 0 <= x <= 255 ==> c == x
    ensures x < 0 ==> c == 0
    ensures 255 < x ==> c == 255
  {
    if x < 255 then (if x < 1 then 0 else x) else 255
  }

  /**
   * `parseInt(hex.replace('#', ''), 16)` as the bit operators see it: NaN
   * reads as 0 and the number is reduced to a signed 32-bit integer.
   */
  function PackedColor(hex: string): int {
    ToInt32(ParseIntHex(ReplaceFirst(hex, '#', "")).GetOr(0))
  }

  /** `num >> 16`, `num >> 8 & 0x00FF` and `num & 0x0000FF`. */
  function Unpacked(n: int): Rgb {
    Rgb(n / 0x10000, n / 0x100 % 0x100, n % 0x100)
  }

  /**
   * `adjustColor`: add `Math.round(2.55 * amount)` to each parsed channel,
   * clamp, and print the channels.
   */
  function AdjustColor(hex: string, amount: int): string {
    ShiftChannels(Unpacked(PackedColor(hex)), Round(2.55 * amount as real))
  }

  /**
   * The printing step of `adjustColor`: `0x1000000 + R * 0x10000 + G * 0x100 + B`
   * in base 16 without its leading '1', after '#'.
   */
  function ShiftChannels(c: Rgb, amt: int): string {
    "#" + SliceFrom(NatToHex(0x1000000 + ClampByte(c.r + amt) * 0x10000 + ClampByte(c.g + amt) * 0x100 + ClampByte(c.b + amt)), 1)
  }

  /** Printing `0x1000000 + ...` and dropping the '1' gives the three bytes' digits. */
  lemma PackedDigits(r: int, g: int, b: int)
    requires IsByte(r) && IsByte(g) && IsByte(b)
    ensures SliceFrom(NatToHex(0x1000000 + r * 0x10000 + g * 0x100 + b), 1) == Hex2(r) + Hex2(g) + Hex2(b)
  {
    PackedNumeral(r, g, b);
    var s := NatToHex(0x1000000 + r * 0x10000 + g * 0x100 + b);
    assert s == "1" + (Hex2(r) + Hex2(g) + Hex2(b));
  }

  /** `(0x1000000 + ...).toString(16)` is '1' followed by the three bytes' digits. */
  lemma PackedNumeral(r: int, g: int, b: int)
    requires IsByte(r) && IsByte(g) && IsByte(b)
    ensures NatToHex(0x1000000 + r * 0x10000 + g * 0x100 + b) == "1" + Hex2(r) + Hex2(g) + Hex2(b)
  {
    var m := 0x10000 + r * 0x100 + g;
    PackedPair(r, g);
    NatToHexBytes(m, b);
  }

  /** `(0x10000 + r * 0x100 + g).toString(16)` is '1' followed by the two bytes' digits. */
  lemma PackedPair(r: int, g: int)
    requires IsByte(r) && IsByte(g)
    ensures NatToHex(0x10000 + r * 0x100 + g) == "1" + Hex2(r) + Hex2(g)
  {
    NatToHexBytes(1, r);
    NatToHexBytes(0x100 + r, g);
    assert NatToHex(1) == "1";
  }

  /** The shifted channels are written as '#' and six lower-case digits that read back as the clamped sums. */
  lemma ShiftChannelsReadsBack(c: Rgb, amt: int)
    ensures var out := ShiftChannels(c, amt);
      IsCanonicalHex(out) && HexToRgb(out) == Rgb(ClampByte(c.r + amt), ClampByte(c.g + amt), ClampByte(c.b + amt))
  {
    var r, g, b := ClampByte(c.r + amt), ClampByte(c.g + amt), ClampByte(c.b + amt);
    ShiftChannelsDigits(c, amt);
    HexOfBytes(r, g, b);
  }

  /** The shifted channels are printed as two digits each after the '#'. */
  lemma ShiftChannelsDigits(c: Rgb, amt: int)
    ensures ShiftChannels(c, amt)
      == "#" + Hex2(ClampByte(c.r + amt)) + Hex2(ClampByte(c.g + amt)) + Hex2(ClampByte(c.b + amt))
  {
    var r, g, b := ClampByte(c.r + amt), ClampByte(c.g + amt), ClampByte(c.b + amt);
    PackedDigits(r, g, b);
    Regroup("#", Hex2(r), Hex2(g), Hex2(b));
  }

  /** Regrouping a four-part concatenation. */
  lemma Regroup(w: string, x: string, y: string, z: string)
    ensures w + (x + y + z) == w + x + y + z
  {
  }

  /**
   * For any input, `adjustColor` writes '#' and six lower-case digits, and
   * each channel it writes is the parsed channel plus the rounded offset,
   * clamped to 0..255.
   */
  lemma AdjustColorChannels(hex: string, amount: int)
    ensures var c := Unpacked(PackedColor(hex));
      var amt := Round(2.55 * amount as real);
      var out := AdjustColor(hex, amount);
      IsCanonicalHex(out) && HexToRgb(out) == Rgb(ClampByte(c.r + amt), ClampByte(c.g + amt), ClampByte(c.b + amt))
  {
    ShiftChannelsReadsBack(Unpacked(PackedColor(hex)), Round(2.55 * amount as real));
  }

  /** Three bytes packed most significant first unpack to themselves. */
  lemma UnpackBytes(n: int, c: Rgb)
    requires IsChannels(c) && n == c.r * 0x10000 + c.g * 0x100 + c.b
    ensures Unpacked(n) == c
  {
    DivideExactly(n, 0x10000, c.r, c.g * 0x100 + c.b);
    DivideExactly(n, 0x100, c.r * 0x100 + c.g, c.b);
    DivideExactly(c.r * 0x100 + c.g, 0x100, c.r, c.g);
  }

  /** Quotient and remainder are unique. */
  lemma DivideExactly(n: int, d: int, q: int, rem: int)
    requires d == 0x100 || d == 0x10000
    requires n == q * d + rem && 0 <= rem < d
    ensures n / d == q && n % d == rem
  {
    if d == 0x100 {
      assert n / 0x100 == q && n % 0x100 == rem;
    } else {
      assert n / 0x10000 == q && n % 0x10000 == rem;
    }
  }

  /** On a well-formed colour the parsed channels are exactly those `hexToRgb` reads. */
  lemma PackedColorOfHex(hex: string)
    requires IsHexColor(hex)
    ensures Unpacked(PackedColor(hex)) == HexToRgb(hex)
  {
    var d := Digits(hex);
    if |hex| == 7 {
      assert hex == "#" + d;
      assert ReplaceFirst(hex, '#', "") == d;
    } else {
      assert '#' !in hex by {
        assert forall i | 0 <= i < |hex| :: hex[i] != '#';
      }
      assert ReplaceFirst(hex, '#', "") == d;
    }
    DigitsValue(d);
    var c := HexToRgb(hex);
    UnpackBytes(PackedColor(hex), c);
  }

  /** Six digits parse to their three bytes and already fit in 32 bits. */
  lemma DigitsValue(d: string)
    requires |d| == 6 && AllHex(d)
    ensures ToInt32(ParseIntHex(d).GetOr(0))
      == PairValue(d[0], d[1]) * 0x10000 + PairValue(d[2], d[3]) * 0x100 + PairValue(d[4], d[5])
  {
    ParseIntHexOfDigits(d);
    HexValueSix(d);
  }

  /** `adjustColor` on '#RRGGBB' (or the bare digits): each channel moved by the rounded offset and clamped. */
  lemma AdjustColorOfHex(hex: string, amount: int)
    requires IsHexColor(hex)
    ensures var c := HexToRgb(hex);
      var amt := Round(2.55 * amount as real);
      var out := AdjustColor(hex, amount);
      IsCanonicalHex(out) && HexToRgb(out) == Rgb(ClampByte(c.r + amt), ClampByte(c.g + amt), ClampByte(c.b + amt))
  {
    PackedColorOfHex(hex);
    AdjustColorChannels(hex, amount);
  }

  /** Adjusting a well-formed colour by 0 only lower-cases its digits and adds the '#'. */
  lemma AdjustColorByNothing(hex: string)
    requires IsHexColor(hex)
    ensures AdjustColor(hex, 0) == "#" + ToLower(Digits(hex))
  {
    var c := HexToRgb(hex);
    var d := Digits(hex);
    PackedColorOfHex(hex);
    AdjustColorIsShift(hex, 0, c);
    RoundOfInt(0);
    assert Round(2.55 * 0 as real) == 0;
    assert AdjustColor(hex, 0) == ShiftChannels(c, 0);
    ShiftByNothing(c);
    DigitPairs(hex);
    assert ShiftChannels(c, 0) == "#" + Hex2(PairValue(d[0], d[1])) + Hex2(PairValue(d[2], d[3])) + Hex2(PairValue(d[4], d[5]));
    ReprintDigits(d);
  }

  /** A shift by 0 reprints the three channels. */
  lemma ShiftByNothing(c: Rgb)
    requires IsChannels(c)
    ensures ShiftChannels(c, 0) == "#" + Hex2(c.r) + Hex2(c.g) + Hex2(c.b)
  {
    ShiftChannelsDigits(c, 0);
    assert ClampByte(c.r + 0) == c.r && ClampByte(c.g + 0) == c.g && ClampByte(c.b + 0) == c.b;
  }

  /** The channels of a well-formed colour are the values of its digit pairs. */
  lemma DigitPairs(hex: string)
    requires IsHexColor(hex)
    ensures var d, c := Digits(hex), HexToRgb(hex);
      c == Rgb(PairValue(d[0], d[1]), PairValue(d[2], d[3]), PairValue(d[4], d[5]))
  {
  }

  /** `adjustColor` shifts whatever channels the parse produced. */
  lemma AdjustColorIsShift(hex: string, amount: int, c: Rgb)
    requires Unpacked(PackedColor(hex)) == c
    ensures AdjustColor(hex, amount) == ShiftChannels(c, Round(2.55 * amount as real))
  {
  }

  /** A larger amount never makes a channel darker, whatever the input text. */
  lemma AdjustColorMonotone(hex: string, a: int, b: int)
    requires a <= b
    ensures NoBrighter(HexToRgb(AdjustColor(hex, a)), HexToRgb(AdjustColor(hex, b)))
  {
    AdjustColorChannels(hex, a);
    AdjustColorChannels(hex, b);
    RoundMonotone(2.55 * a as real, 2.55 * b as real);
  }

  // -------------------------------------------------------- getContrastColor

  /**
   * `getContrastColor`: black when the luminance of the first three digit
   * pairs exceeds one half, white otherwise (also when a pair is NaN).
   */
  function GetContrastColor(hex: string): string {
    var r := ParseIntHex(Slice(hex, 1, 3));
    var g := ParseIntHex(Slice(hex, 3, 5));
    var b := ParseIntHex(Slice(hex, 5, 7));
    if r.Some? && g.Some? && b.Some?
       && (0.299 * r.value as real + 0.587 * g.value as real + 0.114 * b.value as real) / 255.0 > 0.5
    then Black
    else White
  }

  /** The answer is one of two colours, and black exactly when 299r + 587g + 114b exceeds 127500. */
  lemma ContrastThreshold(hex: string)
    ensures var r := ParseIntHex(Slice(hex, 1, 3));
      var g := ParseIntHex(Slice(hex, 3, 5));
      var b := ParseIntHex(Slice(hex, 5, 7));
      var out := GetContrastColor(hex);
      && (out == Black || out == White)
      && (out == Black <==> r.Some? && g.Some? && b.Some? && 299 * r.value + 587 * g.value + 114 * b.value > 127500)
  {
  }

  /** Black text goes on white. */
  lemma ContrastOnWhite()
    ensures GetContrastColor(White) == Black
  {
    assert Slice(White, 1, 3) == "ff" && Slice(White, 3, 5) == "ff" && Slice(White, 5, 7) == "ff";
    assert "ff" == ['f', 'f'];
    ParseIntHexPair('f', 'f');
  }

  /** White text goes on black. */
  lemma ContrastOnBlack()
    ensures GetContrastColor(Black) == White
  {
    BlackPairs();
    ZeroPair();
  }

  lemma BlackPairs()
    ensures Slice(Black, 1, 3) == "00" && Slice(Black, 3, 5) == "00" && Slice(Black, 5, 7) == "00"
  {
  }

  lemma ZeroPair()
    ensures ParseIntHex("00") == Some(0)
  {
    assert "00" == ['0', '0'];
    ParseIntHexPair('0', '0');
  }

  // ------------------------------------------------------------ package.json

  /** The manifest `generatePackageJson` builds, after undefined members are dropped. */
  datatype PackageJson = PackageJson(
    name: string,
    displayName: string,
    description: string,
    version: string,
    publisher: string,
    vscodeEngine: string,
    categories: seq<string>,
    keywords: seq<string>,
    themes: seq<ThemeContribution>,
    repository: Option<Repository>,
    homepage: Option<string>,
    license: string,
    icon: string,
    bannerColor: string,
    bannerTheme: string)

  /** The file name of the theme document inside the `themes` folder. */
  function ThemeFileName(id: string): string {
    id + "-color-theme.json"
  }

  /** The archive key of the theme document. */
  function ThemePath(id: string): string {
    "themes/" + ThemeFileName(id)
  }

  function GeneratePackageJson(theme: Theme, options: VsixOptions): PackageJson {
    PackageJson(
      name := "vsskin-" + theme.id,
      displayName := OrElse(options.displayName, theme.displayName),
      description := OrElse(options.description, theme.description),
      version := OrElse(options.version, DefaultVersion),
      publisher := OrElse(options.publisher, "vsskin"),
      vscodeEngine := "^1.74.0",
      categories := ["Themes"],
      keywords := ["theme", "color-theme", ToLower(theme.brand.name), VariantName(theme.themeType)] + theme.metadata.tags,
      themes := [ThemeContribution(theme.displayName, UiTheme(theme.themeType), "./" + ThemePath(theme.id))],
      repository := if options.repository.Some? && options.repository.value != "" then Some(Repository("git", options.repository.value)) else None,
      homepage := options.homepage,
      license := OrElse(options.license, "MIT"),
      icon := "icon.png",
      bannerColor := theme.brand.primaryColor,
      bannerTheme := VariantName(theme.themeType))
  }

  /**
   * The manifest's defaults: an empty or missing option falls back, the
   * repository is present exactly when a non-empty one is given, the
   * homepage is kept as given, and the single contributed theme is dark
   * exactly for a dark theme and points into the `themes` folder.
   */
  lemma PackageJsonDefaults(theme: Theme, options: VsixOptions)
    ensures var p := GeneratePackageJson(theme, options);
      && p.name == "vsskin-" + theme.id
      && (options.version == None || options.version == Some("") ==> p.version == "1.0.0")
      && (options.publisher == None || options.publisher == Some("") ==> p.publisher == "vsskin")
      && (options.license == None || options.license == Some("") ==> p.license == "MIT")
      && (options.displayName == None || options.displayName == Some("") ==> p.displayName == theme.displayName)
      && (options.description == None || options.description == Some("") ==> p.description == theme.description)
      && (p.repository.Some? <==> options.repository.Some? && options.repository.value != "")
      && (p.repository.Some? ==> p.repository.value == Repository("git", options.repository.value))
      && p.homepage == options.homepage
      && |p.themes| == 1
      && (p.themes[0].uiTheme == "vs-dark" <==> theme.themeType == Dark)
      && p.themes[0].path == "./" + ThemePath(theme.id)
      && p.keywords[4..] == theme.metadata.tags
  {
  }

  // ------------------------------------------------------ theme document

  /** Where a colour of the exported document comes from. */
  datatype Source = ThemeColor(key: Token) | BrandPrimary | BrandSecondary | Constant(hex: string)

  /** How an exported colour is derived from its source. */
  datatype Derivation =
    | Copy(src: Source)                  // the source itself
    | Faded(src: Source, opacity: real)  // adjustOpacity(src, opacity)
    | Shifted(src: Source, amount: int)  // adjustColor(src, amount)
    | Offset(src: Source, amount: int)   // adjustColor(src, dark ? amount : -amount)
    | Contrast(src: Source)              // getContrastColor(src)
    | ByType(dark: string, light: string)

  /** The value of a source; None is `undefined`, a colour the theme does not define. */
  function Lookup(theme: Theme, s: Source): Option<string> {
    match s
    case ThemeColor(k) => if k in theme.colors then Some(theme.colors[k]) else None
    case BrandPrimary => Some(theme.brand.primaryColor)
    case BrandSecondary => Some(theme.brand.secondaryColor)
    case Constant(hex) => Some(hex)
  }

  /** The offset of an `Offset` derivation for a theme of type `v`. */
  function OffsetFor(v: Variant, amount: int): int {
    if v == Dark then amount else -amount
  }

  /**
   * The colour a derivation gives; None leaves the member out of the
   * document. `adjustColor` and `getContrastColor` throw on undefined, so
   * those cases never reach a document (see `ShadeSourcesDefined`).
   */
  function Derive(theme: Theme, d: Derivation): Option<string> {
    match d
    case Copy(s) => Lookup(theme, s)
    case Faded(s, o) => Some(AdjustOpacity(Text(Lookup(theme, s)), o))
    case Shifted(s, a) =>
      if Lookup(theme, s).Some? then Some(AdjustColor(Lookup(theme, s).value, a)) else None
    case Offset(s, a) =>
      if Lookup(theme, s).Some? then Some(AdjustColor(Lookup(theme, s).value, OffsetFor(theme.themeType, a))) else None
    case Contrast(s) =>
      if Lookup(theme, s).Some? then Some(GetContrastColor(Lookup(theme, s).value)) else None
    case ByType(dark, light) => Some(if theme.themeType == Dark then dark else light)
  }

  /**
   * The theme colours `generateThemeJson` hands to `adjustColor`; when one
   * is undefined the call throws a TypeError and no document is built.
   */
  predicate ShadeSourcesDefined(colors: ThemeColors) {
    && ActivityBarBackground in colors && SideBarBackground in colors && EditorBackground in colors
    && TitleBarActiveBackground in colors && StatusBarBackground in colors
  }

  /** The recipe of each member of `colors` in the exported document (vsixExporter.ts:66-262). */
  function ExportRecipe(t: Token): Option<Derivation> {
    match t
    case ActivityBarBackground => Some(Copy(ThemeColor(ActivityBarBackground)))
    case ActivityBarForeground => Some(Copy(ThemeColor(ActivityBarForeground)))
    case ActivityBarInactiveForeground => Some(Faded(ThemeColor(ActivityBarForeground), 0.6))
    case ActivityBarBorder => Some(Offset(ThemeColor(ActivityBarBackground), 20))
    case ActivityBarBadgeBackground => Some(Copy(BrandPrimary))
    case ActivityBarBadgeForeground => Some(Contrast(BrandPrimary))
    case SideBarBackground => Some(Copy(ThemeColor(SideBarBackground)))
    case SideBarForeground => Some(Copy(ThemeColor(SideBarForeground)))
    case SideBarBorder => Some(Offset(ThemeColor(SideBarBackground), 20))
    case SideBarTitleForeground => Some(Copy(ThemeColor(SideBarForeground)))
    case SideBarSectionHeaderBackground => Some(Offset(ThemeColor(SideBarBackground), 10))
    case SideBarSectionHeaderForeground => Some(Copy(ThemeColor(SideBarForeground)))
    case EditorBackground => Some(Copy(ThemeColor(EditorBackground)))
    case EditorForeground => Some(Copy(ThemeColor(EditorForeground)))
    case EditorLineNumberForeground => Some(Faded(ThemeColor(EditorForeground), 0.4))
    case EditorLineNumberActiveForeground => Some(Faded(ThemeColor(EditorForeground), 0.8))
    case EditorCursorForeground => Some(Copy(BrandPrimary))
    case EditorSelectionBackground => Some(Faded(BrandPrimary, 0.2))
    case EditorSelectionHighlightBackground => Some(Faded(BrandPrimary, 0.1))
    case EditorWordHighlightBackground => Some(Faded(BrandSecondary, 0.1))
    case EditorWordHighlightStrongBackground => Some(Faded(BrandSecondary, 0.2))
    case EditorFindMatchBackground => Some(Faded(BrandPrimary, 0.3))
    case EditorFindMatchHighlightBackground => Some(Faded(BrandPrimary, 0.1))
    case EditorBracketMatchBackground => Some(Faded(BrandPrimary, 0.2))
    case EditorBracketMatchBorder => Some(Copy(BrandPrimary))
    case EditorGroupBorder => Some(Offset(ThemeColor(EditorBackground), 20))
    case EditorGroupHeaderTabsBackground => Some(Offset(ThemeColor(EditorBackground), -10))
    case EditorGroupHeaderTabsBorder => Some(Offset(ThemeColor(EditorBackground), 20))
    case TabActiveBackground => Some(Copy(ThemeColor(EditorBackground)))
    case TabActiveForeground => Some(Copy(ThemeColor(EditorForeground)))
    case TabActiveBorder => Some(Copy(BrandPrimary))
    case TabInactiveBackground => Some(Offset(ThemeColor(EditorBackground), -10))
    case TabInactiveForeground => Some(Faded(ThemeColor(EditorForeground), 0.6))
    case TabBorder => Some(Offset(ThemeColor(EditorBackground), 20))
    case TitleBarActiveBackground => Some(Copy(ThemeColor(TitleBarActiveBackground)))
    case TitleBarActiveForeground => Some(Copy(ThemeColor(TitleBarActiveForeground)))
    case TitleBarInactiveBackground => Some(Offset(ThemeColor(TitleBarActiveBackground), -10))
    case TitleBarInactiveForeground => Some(Faded(ThemeColor(TitleBarActiveForeground), 0.6))
    case TitleBarBorder => Some(Offset(ThemeColor(TitleBarActiveBackground), 20))
    case StatusBarBackground => Some(Copy(ThemeColor(StatusBarBackground)))
    case StatusBarForeground => Some(Copy(ThemeColor(StatusBarForeground)))
    case StatusBarBorder => Some(Offset(ThemeColor(StatusBarBackground), 20))
    case StatusBarDebuggingBackground => Some(Shifted(BrandSecondary, -20))
    case StatusBarDebuggingForeground => Some(Contrast(BrandSecondary))
    case StatusBarNoFolderBackground => Some(Offset(ThemeColor(StatusBarBackground), -10))
    case PanelBackground => Some(Copy(ThemeColor(EditorBackground)))
    case PanelBorder => Some(Offset(ThemeColor(EditorBackground), 20))
    case PanelTitleActiveForeground => Some(Copy(BrandPrimary))
    case PanelTitleInactiveForeground => Some(Faded(ThemeColor(EditorForeground), 0.6))
    case PanelTitleActiveBorder => Some(Copy(BrandPrimary))
    case TerminalBackground => Some(Copy(ThemeColor(EditorBackground)))
    case TerminalForeground => Some(Copy(ThemeColor(EditorForeground)))
    case TerminalAnsiBlack => Some(ByType("#000000", "#ffffff"))
    case TerminalAnsiRed => Some(Copy(Constant("#e74c3c")))
    case TerminalAnsiGreen => Some(Copy(Constant("#27ae60")))
    case TerminalAnsiYellow => Some(Copy(Constant("#f39c12")))
    case TerminalAnsiBlue => Some(Copy(Constant("#3498db")))
    case TerminalAnsiMagenta => Some(Copy(Constant("#9b59b6")))
    case TerminalAnsiCyan => Some(Copy(Constant("#1abc9c")))
    case TerminalAnsiWhite => Some(ByType("#ffffff", "#000000"))
    case ScrollbarSliderBackground => Some(Faded(ThemeColor(EditorForeground), 0.1))
    case ScrollbarSliderHoverBackground => Some(Faded(ThemeColor(EditorForeground), 0.2))
    case ScrollbarSliderActiveBackground => Some(Faded(ThemeColor(EditorForeground), 0.3))
    case ButtonBackground => Some(Copy(BrandPrimary))
    case ButtonForeground => Some(Contrast(BrandPrimary))
    case ButtonHoverBackground => Some(Shifted(BrandPrimary, -10))
    case ButtonSecondaryBackground => Some(Faded(BrandPrimary, 0.1))
    case ButtonSecondaryForeground => Some(Copy(BrandPrimary))
    case ButtonSecondaryHoverBackground => Some(Faded(BrandPrimary, 0.2))
    case InputBackground => Some(Offset(ThemeColor(EditorBackground), 10))
    case InputForeground => Some(Copy(ThemeColor(EditorForeground)))
    case InputBorder => Some(Offset(ThemeColor(EditorBackground), 30))
    case InputPlaceholderForeground => Some(Faded(ThemeColor(EditorForeground), 0.5))
    case InputOptionActiveBorder => Some(Copy(BrandPrimary))
    case InputValidationErrorBackground => Some(Faded(Constant("#e74c3c"), 0.1))
    case InputValidationErrorBorder => Some(Copy(Constant("#e74c3c")))
    case DropdownBackground => Some(Offset(ThemeColor(EditorBackground), 10))
    case DropdownForeground => Some(Copy(ThemeColor(EditorForeground)))
    case DropdownBorder => Some(Offset(ThemeColor(EditorBackground), 30))
    case ListActiveSelectionBackground => Some(Faded(BrandPrimary, 0.2))
    case ListActiveSelectionForeground => Some(Copy(ThemeColor(EditorForeground)))
    case ListHoverBackground => Some(Faded(BrandPrimary, 0.1))
    case ListInactiveSelectionBackground => Some(Faded(BrandPrimary, 0.1))
    case ListFocusBackground => Some(Faded(BrandPrimary, 0.15))
    case ListHighlightForeground => Some(Copy(BrandPrimary))
    case TreeIndentGuidesStroke => Some(Faded(ThemeColor(EditorForeground), 0.2))
    case BadgeBackground => Some(Copy(BrandPrimary))
    case BadgeForeground => Some(Contrast(BrandPrimary))
    case ProgressBarBackground => Some(Copy(BrandPrimary))
    case EditorWidgetBackground => Some(Offset(ThemeColor(EditorBackground), 15))
    case EditorWidgetForeground => Some(Copy(ThemeColor(EditorForeground)))
    case EditorWidgetBorder => Some(Offset(ThemeColor(EditorBackground), 30))
    case PeekViewBackground => Some(Offset(ThemeColor(EditorBackground), 10))
    case PeekViewEditorBackground => Some(Copy(ThemeColor(EditorBackground)))
    case PeekViewTitleBackground => Some(Offset(ThemeColor(EditorBackground), 20))
    case PeekViewTitleLabelForeground => Some(Copy(ThemeColor(EditorForeground)))
    case NotificationCenterBorder => Some(Offset(ThemeColor(EditorBackground), 30))
    case NotificationCenterHeaderBackground => Some(Offset(ThemeColor(EditorBackground), 15))
    case NotificationsBackground => Some(Offset(ThemeColor(EditorBackground), 10))
    case NotificationsBorder => Some(Offset(ThemeColor(EditorBackground), 30))
    case NotificationLinkForeground => Some(Copy(BrandPrimary))
    case ExtensionButtonProminentBackground => Some(Copy(BrandPrimary))
    case ExtensionButtonProminentForeground => Some(Contrast(BrandPrimary))
    case ExtensionButtonProminentHoverBackground => Some(Shifted(BrandPrimary, -10))
    case PickerGroupForeground => Some(Copy(BrandPrimary))
    case PickerGroupBorder => Some(Offset(ThemeColor(EditorBackground), 30))
    case DebugToolBarBackground => Some(Offset(ThemeColor(EditorBackground), 15))
    case DebugToolBarBorder => Some(Offset(ThemeColor(EditorBackground), 30))
    case WelcomePageButtonBackground => Some(Faded(BrandPrimary, 0.1))
    case WelcomePageButtonHoverBackground => Some(Faded(BrandPrimary, 0.2))
    case WalkThroughEmbeddedEditorBackground => Some(Offset(ThemeColor(EditorBackground), 5))
    case GitDecorationModifiedResourceForeground => Some(Copy(Constant("#f39c12")))
    case GitDecorationDeletedResourceForeground => Some(Copy(Constant("#e74c3c")))
    case GitDecorationUntrackedResourceForeground => Some(Copy(Constant("#27ae60")))
    case GitDecorationIgnoredResourceForeground => Some(Faded(ThemeColor(EditorForeground), 0.4))
    case GitDecorationConflictingResourceForeground => Some(Copy(Constant("#9b59b6")))
    case BreadcrumbBackground => Some(Copy(ThemeColor(EditorBackground)))
    case BreadcrumbForeground => Some(Faded(ThemeColor(EditorForeground), 0.7))
    case BreadcrumbFocusForeground => Some(Copy(ThemeColor(EditorForeground)))
    case BreadcrumbActiveSelectionForeground => Some(Copy(BrandPrimary))
    case BreadcrumbPickerBackground => Some(Offset(ThemeColor(EditorBackground), 10))
    case MenuBackground => Some(Offset(ThemeColor(EditorBackground), 10))
    case MenuForeground => Some(Copy(ThemeColor(EditorForeground)))
    case MenuSelectionBackground => Some(Faded(BrandPrimary, 0.2))
    case MenuSelectionForeground => Some(Copy(ThemeColor(EditorForeground)))
    case MenuBorder => Some(Offset(ThemeColor(EditorBackground), 30))
    case MenubarSelectionBackground => Some(Faded(BrandPrimary, 0.1))
    case MenubarSelectionForeground => Some(Copy(ThemeColor(EditorForeground)))
    case SettingsHeaderForeground => Some(Copy(ThemeColor(EditorForeground)))
    case SettingsModifiedItemIndicator => Some(Copy(BrandPrimary))
    case SettingsDropdownBackground => Some(Offset(ThemeColor(EditorBackground), 10))
    case SettingsDropdownForeground => Some(Copy(ThemeColor(EditorForeground)))
    case SettingsDropdownBorder => Some(Offset(ThemeColor(EditorBackground), 30))
    case SettingsCheckboxBackground => Some(Offset(ThemeColor(EditorBackground), 10))
    case SettingsCheckboxForeground => Some(Copy(ThemeColor(EditorForeground)))
    case SettingsCheckboxBorder => Some(Offset(ThemeColor(EditorBackground), 30))
    case SettingsTextInputBackground => Some(Offset(ThemeColor(EditorBackground), 10))
    case SettingsTextInputForeground => Some(Copy(ThemeColor(EditorForeground)))
    case SettingsTextInputBorder => Some(Offset(ThemeColor(EditorBackground), 30))
    case SettingsNumberInputBackground => Some(Offset(ThemeColor(EditorBackground), 10))
    case SettingsNumberInputForeground => Some(Copy(ThemeColor(EditorForeground)))
    case SettingsNumberInputBorder => Some(Offset(ThemeColor(EditorBackground), 30))
    case _ => None
  }

  /** The `colors` member of the exported document. */
  function ExportColors(theme: Theme): ThemeColors {
    map t: Token | ExportRecipe(t).Some? && Derive(theme, ExportRecipe(t).value).Some?
      :: Derive(theme, ExportRecipe(t).value).value
  }

  /** One member of the exported colours: present exactly when its derivation is defined. */
  lemma ExportColorOf(theme: Theme, t: Token, d: Derivation)
    requires ExportRecipe(t) == Some(d)
    ensures t in ExportColors(theme) <==> Derive(theme, d).Some?
    ensures t in ExportColors(theme) ==> ExportColors(theme)[t] == Derive(theme, d).value
  {
  }

  // One recipe entry per lemma: evaluating several entries of the large
  // match in one proof is far more expensive than combining single facts.

  lemma EditorBackgroundCopied()
    ensures ExportRecipe(EditorBackground) == Some(Copy(ThemeColor(EditorBackground)))
  {
  }

  lemma TabBackgroundCopied()
    ensures ExportRecipe(TabActiveBackground) == Some(Copy(ThemeColor(EditorBackground)))
  {
  }

  lemma PanelBackgroundCopied()
    ensures ExportRecipe(PanelBackground) == Some(Copy(ThemeColor(EditorBackground)))
  {
  }

  lemma TerminalBackgroundCopied()
    ensures ExportRecipe(TerminalBackground) == Some(Copy(ThemeColor(EditorBackground)))
  {
  }

  lemma BreadcrumbBackgroundCopied()
    ensures ExportRecipe(BreadcrumbBackground) == Some(Copy(ThemeColor(EditorBackground)))
  {
  }

  lemma EditorForegroundCopied()
    ensures ExportRecipe(EditorForeground) == Some(Copy(ThemeColor(EditorForeground)))
  {
  }

  lemma TabForegroundCopied()
    ensures ExportRecipe(TabActiveForeground) == Some(Copy(ThemeColor(EditorForeground)))
  {
  }

  lemma TerminalForegroundCopied()
    ensures ExportRecipe(TerminalForeground) == Some(Copy(ThemeColor(EditorForeground)))
  {
  }

  lemma AnsiBlackByType()
    ensures ExportRecipe(TerminalAnsiBlack) == Some(ByType(Black, White))
  {
  }

  lemma AnsiWhiteByType()
    ensures ExportRecipe(TerminalAnsiWhite) == Some(ByType(White, Black))
  {
  }

  /** The editor background is copied unchanged into the editor, tab, panel, terminal and breadcrumb backgrounds. */
  lemma BackgroundCopies(theme: Theme)
    ensures forall t | t in {EditorBackground, TabActiveBackground, PanelBackground, TerminalBackground, BreadcrumbBackground} ::
      && (t in ExportColors(theme) <==> EditorBackground in theme.colors)
      && (t in ExportColors(theme) ==> ExportColors(theme)[t] == theme.colors[EditorBackground])
  {
    var d := Copy(ThemeColor(EditorBackground));
    EditorBackgroundCopied();
    ExportColorOf(theme, EditorBackground, d);
    TabBackgroundCopied();
    ExportColorOf(theme, TabActiveBackground, d);
    PanelBackgroundCopied();
    ExportColorOf(theme, PanelBackground, d);
    TerminalBackgroundCopied();
    ExportColorOf(theme, TerminalBackground, d);
    BreadcrumbBackgroundCopied();
    ExportColorOf(theme, BreadcrumbBackground, d);
  }

  /** The editor foreground is copied unchanged into the editor, active tab and terminal foregrounds. */
  lemma ForegroundCopies(theme: Theme)
    ensures forall t | t in {EditorForeground, TabActiveForeground, TerminalForeground} ::
      && (t in ExportColors(theme) <==> EditorForeground in theme.colors)
      && (t in ExportColors(theme) ==> ExportColors(theme)[t] == theme.colors[EditorForeground])
  {
    var d := Copy(ThemeColor(EditorForeground));
    EditorForegroundCopied();
    ExportColorOf(theme, EditorForeground, d);
    TabForegroundCopied();
    ExportColorOf(theme, TabActiveForeground, d);
    TerminalForegroundCopied();
    ExportColorOf(theme, TerminalForeground, d);
  }

  /** ANSI black and white swap with the theme type. */
  lemma AnsiSwap(theme: Theme)
    ensures TerminalAnsiBlack in ExportColors(theme) && TerminalAnsiWhite in ExportColors(theme)
    ensures ExportColors(theme)[TerminalAnsiBlack] == (if theme.themeType == Dark then "#000000" else "#ffffff")
    ensures ExportColors(theme)[TerminalAnsiWhite] == (if theme.themeType == Dark then "#ffffff" else "#000000")
  {
    AnsiBlackByType();
    ExportColorOf(theme, TerminalAnsiBlack, ByType(Black, White));
    AnsiWhiteByType();
    ExportColorOf(theme, TerminalAnsiWhite, ByType(White, Black));
  }

  /**
   * Every type-dependent offset flips its sign with the theme type: the dark
   * and the light export of the same theme adjust the same source by
   * opposite amounts.
   */
  lemma OffsetFlips(theme: Theme, t: Token, s: Source, amount: int)
    requires ExportRecipe(t) == Some(Offset(s, amount)) && Lookup(theme, s).Some?
    ensures var dark := ExportColors(theme.(themeType := Dark));
      var light := ExportColors(theme.(themeType := Light));
      && t in dark && dark[t] == AdjustColor(Lookup(theme, s).value, amount)
      && t in light && light[t] == AdjustColor(Lookup(theme, s).value, -amount)
  {
    ExportColorOf(theme.(themeType := Dark), t, Offset(s, amount));
    ExportColorOf(theme.(themeType := Light), t, Offset(s, amount));
    assert Lookup(theme.(themeType := Dark), s) == Lookup(theme, s);
    assert Lookup(theme.(themeType := Light), s) == Lookup(theme, s);
  }

  // ------------------------------------------------------------ syntax rules

  /** A syntax rule of the catalogue, its colour still to be derived from the theme. */
  datatype RuleRecipe = RuleRecipe(name: string, scope: seq<string>, foreground: Option<Derivation>, fontStyle: Option<string>)

  const RuleCount := 57

  /** The `tokenColors` catalogue, entry by entry in order (vsixExporter.ts:264-775). */
  function CatalogueEntry(i: nat): RuleRecipe
    requires i < RuleCount
  {
    match i
    case 0 => RuleRecipe("Comment", ["comment", "punctuation.definition.comment"], Some(Faded(ThemeColor(EditorForeground), 0.6)), Some("italic"))
    case 1 => RuleRecipe("Variables", ["variable", "string constant.other.placeholder"], Some(Copy(ThemeColor(EditorForeground))), None)
    case 2 => RuleRecipe("Colors", ["constant.other.color"], Some(Copy(BrandSecondary)), None)
    case 3 => RuleRecipe("Invalid", ["invalid", "invalid.illegal"], Some(Copy(Constant("#e74c3c"))), None)
    case 4 => RuleRecipe("Keyword, Storage", ["keyword", "storage.type", "storage.modifier"], Some(Copy(BrandPrimary)), None)
    case 5 => RuleRecipe("Operator, Misc", ["keyword.control", "constant.other.color", "punctuation", "meta.tag", "punctuation.definition.tag", "punctuation.separator.inheritance.php", "punctuation.definition.tag.html", "punctuation.definition.tag.begin.html", "punctuation.definition.tag.end.html", "punctuation.section.embedded", "keyword.other.template", "keyword.other.substitution"], Some(Faded(ThemeColor(EditorForeground), 0.8)), None)
    case 6 => RuleRecipe("Tag", ["entity.name.tag", "meta.tag.sgml", "markup.deleted.git_gutter"], Some(Copy(BrandPrimary)), None)
    case 7 => RuleRecipe("Function, Special Method", ["entity.name.function", "meta.function-call", "variable.function", "support.function", "keyword.other.special-method"], Some(Copy(BrandSecondary)), None)
    case 8 => RuleRecipe("Block Level Variables", ["meta.block variable.other"], Some(Copy(ThemeColor(EditorForeground))), None)
    case 9 => RuleRecipe("Other Variable, String Link", ["support.other.variable", "string.other.link"], Some(Copy(ThemeColor(EditorForeground))), None)
    case 10 => RuleRecipe("Number, Constant, Function Argument, Tag Attribute, Embedded", ["constant.numeric", "constant.language", "support.constant", "constant.character", "constant.escape", "variable.parameter", "keyword.other.unit", "keyword.other"], Some(Copy(Constant("#f39c12"))), None)
    case 11 => RuleRecipe("String, Symbols, Inherited Class, Markup Heading", ["string", "constant.other.symbol", "constant.other.key", "entity.other.inherited-class", "markup.heading", "markup.inserted.git_gutter", "meta.group.braces.curly constant.other.object.key.js string.unquoted.label.js"], Some(Copy(Constant("#27ae60"))), None)
    case 12 => RuleRecipe("Class, Support", ["entity.name", "support.type", "support.class", "support.other.namespace.use.php", "meta.use.php", "support.other.namespace.php", "markup.changed.git_gutter", "support.type.sys-types"], Some(Copy(Constant("#3498db"))), None)
    case 13 => RuleRecipe("Entity Types", ["support.type"], Some(Faded(BrandPrimary, 0.8)), None)
    case 14 => RuleRecipe("CSS Class and Support", ["source.css support.type.property-name", "source.sass support.type.property-name", "source.scss support.type.property-name", "source.less support.type.property-name", "source.stylus support.type.property-name", "source.postcss support.type.property-name"], Some(Copy(BrandSecondary)), None)
    case 15 => RuleRecipe("Sub-methods", ["entity.name.module.js", "variable.import.parameter.js", "variable.other.class.js"], Some(Copy(Constant("#e74c3c"))), None)
    case 16 => RuleRecipe("Language methods", ["variable.language"], Some(Copy(Constant("#e74c3c"))), Some("italic"))
    case 17 => RuleRecipe("entity.name.method.js", ["entity.name.method.js"], Some(Copy(BrandSecondary)), Some("italic"))
    case 18 => RuleRecipe("meta.method.js", ["meta.class-method.js entity.name.function.js", "variable.function.constructor"], Some(Copy(BrandSecondary)), None)
    case 19 => RuleRecipe("Attributes", ["entity.other.attribute-name"], Some(Copy(Constant("#9b59b6"))), None)
    case 20 => RuleRecipe("HTML Attributes", ["text.html.basic entity.other.attribute-name.html", "text.html.basic entity.other.attribute-name"], Some(Copy(Constant("#f39c12"))), Some("italic"))
    case 21 => RuleRecipe("CSS Classes", ["entity.other.attribute-name.class"], Some(Copy(Constant("#f39c12"))), None)
    case 22 => RuleRecipe("CSS ID's", ["source.sass keyword.control"], Some(Copy(BrandSecondary)), None)
    case 23 => RuleRecipe("Inserted", ["markup.inserted"], Some(Copy(Constant("#27ae60"))), None)
    case 24 => RuleRecipe("Deleted", ["markup.deleted"], Some(Copy(Constant("#e74c3c"))), None)
    case 25 => RuleRecipe("Changed", ["markup.changed"], Some(Copy(Constant("#9b59b6"))), None)
    case 26 => RuleRecipe("Regular Expressions", ["string.regexp"], Some(Copy(Constant("#1abc9c"))), None)
    case 27 => RuleRecipe("Escape Characters", ["constant.character.escape"], Some(Copy(Constant("#1abc9c"))), None)
    case 28 => RuleRecipe("URL", ["*url*", "*link*", "*uri*"], None, Some("underline"))
    case 29 => RuleRecipe("Decorators", ["tag.decorator.js entity.name.tag.js", "tag.decorator.js punctuation.definition.tag.js"], Some(Copy(BrandSecondary)), Some("italic"))
    case 30 => RuleRecipe("ES7 Bind Operator", ["source.js constant.other.object.key.js string.unquoted.label.js"], Some(Copy(Constant("#e74c3c"))), Some("italic"))
    case 31 => RuleRecipe("JSON Key - Level 0", ["source.json meta.structure.dictionary.json support.type.property-name.json"], Some(Copy(Constant("#9b59b6"))), None)
    case 32 => RuleRecipe("JSON Key - Level 1", ["source.json meta.structure.dictionary.json meta.structure.dictionary.value.json meta.structure.dictionary.json support.type.property-name.json"], Some(Copy(Constant("#f39c12"))), None)
    case 33 => RuleRecipe("JSON Key - Level 2", ["source.json meta.structure.dictionary.json meta.structure.dictionary.value.json meta.structure.dictionary.json meta.structure.dictionary.value.json meta.structure.dictionary.json support.type.property-name.json"], Some(Copy(Constant("#e74c3c"))), None)
    case 34 => RuleRecipe("JSON Key - Level 3", ["source.json meta.structure.dictionary.json meta.structure.dictionary.value.json meta.structure.dictionary.json meta.structure.dictionary.value.json meta.structure.dictionary.json meta.structure.dictionary.value.json meta.structure.dictionary.json support.type.property-name.json"], Some(Copy(Constant("#3498db"))), None)
    case 35 => RuleRecipe("JSON Key - Level 4", ["source.json meta.structure.dictionary.json meta.structure.dictionary.value.json meta.structure.dictionary.json meta.structure.dictionary.value.json meta.structure.dictionary.json meta.structure.dictionary.value.json meta.structure.dictionary.json meta.structure.dictionary.value.json meta.structure.dictionary.json support.type.property-name.json"], Some(Copy(Constant("#27ae60"))), None)
    case 36 => RuleRecipe("JSON Key - Level 5", ["source.json meta.structure.dictionary.json meta.structure.dictionary.value.json meta.structure.dictionary.json meta.structure.dictionary.value.json meta.structure.dictionary.json meta.structure.dictionary.value.json meta.structure.dictionary.json meta.structure.dictionary.value.json meta.structure.dictionary.json meta.structure.dictionary.value.json meta.structure.dictionary.json support.type.property-name.json"], Some(Copy(Constant("#1abc9c"))), None)
    case 37 => RuleRecipe("Markdown - Plain", ["text.html.markdown", "punctuation.definition.list_item.markdown"], Some(Copy(ThemeColor(EditorForeground))), None)
    case 38 => RuleRecipe("Markdown - Markup Raw Inline", ["text.html.markdown markup.inline.raw.markdown"], Some(Copy(Constant("#9b59b6"))), None)
    case 39 => RuleRecipe("Markdown - Markup Raw Inline Punctuation", ["text.html.markdown markup.inline.raw.markdown punctuation.definition.raw.markdown"], Some(Faded(ThemeColor(EditorForeground), 0.8)), None)
    case 40 => RuleRecipe("Markdown - Heading", ["markdown.heading", "markup.heading | markup.heading entity.name", "markup.heading.markdown punctuation.definition.heading.markdown"], Some(Copy(BrandPrimary)), None)
    case 41 => RuleRecipe("Markup - Italic", ["markup.italic"], Some(Copy(Constant("#e74c3c"))), Some("italic"))
    case 42 => RuleRecipe("Markup - Bold", ["markup.bold", "markup.bold string"], Some(Copy(Constant("#e74c3c"))), Some("bold"))
    case 43 => RuleRecipe("Markup - Bold-Italic", ["markup.bold markup.italic", "markup.italic markup.bold", "markup.quote markup.bold", "markup.bold markup.italic string", "markup.italic markup.bold string", "markup.quote markup.bold string"], Some(Copy(Constant("#e74c3c"))), Some("bold"))
    case 44 => RuleRecipe("Markup - Underline", ["markup.underline"], Some(Copy(Constant("#f39c12"))), Some("underline"))
    case 45 => RuleRecipe("Markdown - Blockquote", ["markup.quote punctuation.definition.blockquote.markdown"], Some(Faded(ThemeColor(EditorForeground), 0.8)), None)
    case 46 => RuleRecipe("Markup - Quote", ["markup.quote"], None, Some("italic"))
    case 47 => RuleRecipe("Markdown - Link", ["string.other.link.title.markdown"], Some(Copy(BrandSecondary)), None)
    case 48 => RuleRecipe("Markdown - Link Description", ["string.other.link.description.title.markdown"], Some(Copy(Constant("#9b59b6"))), None)
    case 49 => RuleRecipe("Markdown - Link Anchor", ["constant.other.reference.link.markdown"], Some(Copy(Constant("#f39c12"))), None)
    case 50 => RuleRecipe("Markup - Raw Block", ["markup.raw.block"], Some(Copy(Constant("#9b59b6"))), None)
    case 51 => RuleRecipe("Markdown - Raw Block Fenced", ["markup.raw.block.fenced.markdown"], Some(Faded(ThemeColor(EditorForeground), 0.8)), None)
    case 52 => RuleRecipe("Markdown - Fenced Bode Block", ["punctuation.definition.fenced.markdown"], Some(Faded(ThemeColor(EditorForeground), 0.8)), None)
    case 53 => RuleRecipe("Markdown - Fenced Bode Block Variable", ["markup.raw.block.fenced.markdown", "variable.language.fenced.markdown", "punctuation.section.class.end"], Some(Copy(ThemeColor(EditorForeground))), None)
    case 54 => RuleRecipe("Markdown - Fenced Language", ["variable.language.fenced.markdown"], Some(Faded(ThemeColor(EditorForeground), 0.8)), None)
    case 55 => RuleRecipe("Markdown - Separator", ["meta.separator"], Some(Faded(ThemeColor(EditorForeground), 0.8)), Some("bold"))
    case _ /* 56 */ => RuleRecipe("Markup - Table", ["markup.table"], Some(Copy(ThemeColor(EditorForeground))), None)
  }

  /** A catalogue entry for a theme; an undefined foreground is left out. */
  function Instantiate(theme: Theme, rule: RuleRecipe): TokenRule {
    var foreground := if rule.foreground.Some? then Derive(theme, rule.foreground.value) else None;
    TokenRule(Some(rule.name), Some(rule.scope), TokenSettings(foreground, None, rule.fontStyle))
  }

  /** The `tokenColors` member: the catalogue instantiated rule by rule. */
  function TokenColors(theme: Theme): seq<TokenRule> {
    seq(RuleCount, i requires 0 <= i < RuleCount => Instantiate(theme, CatalogueEntry(i)))
  }

  /**
   * Every theme gets the same 57 rules in the same order, with the same
   * names, scopes and font styles; only the colours depend on the theme.
   */
  lemma RulesFixed(a: Theme, b: Theme)
    ensures |TokenColors(a)| == |TokenColors(b)| == 57
    ensures forall i | 0 <= i < 57 ::
      && TokenColors(a)[i].name == TokenColors(b)[i].name == Some(CatalogueEntry(i).name)
      && TokenColors(a)[i].scope == TokenColors(b)[i].scope == Some(CatalogueEntry(i).scope)
      && TokenColors(a)[i].settings.fontStyle == TokenColors(b)[i].settings.fontStyle
  {
  }

  /** The first rule styles comments in italics, in the editor foreground at 60% opacity. */
  lemma CommentRule(theme: Theme)
    ensures TokenColors(theme)[0] == TokenRule(
      Some("Comment"), Some(["comment", "punctuation.definition.comment"]),
      TokenSettings(Some(AdjustOpacity(Text(Lookup(theme, ThemeColor(EditorForeground))), 0.6)), None, Some("italic")))
  {
  }

  /** The theme-definition document. */
  datatype ThemeDocument = ThemeDocument(
    name: string,
    kind: string,
    semanticHighlighting: bool,
    semanticTokenColors: map<string, string>,
    colors: ThemeColors,
    tokenColors: seq<TokenRule>)

  /** `generateThemeJson`; None when it throws because an adjusted colour is undefined. */
  function GenerateThemeJson(theme: Theme): (doc: Option<ThemeDocument>)
    ensures doc.Some? <==> ShadeSourcesDefined(theme.colors)
    ensures doc.Some? ==> doc.value.colors == ExportColors(theme) && doc.value.tokenColors == TokenColors(theme)
  {
    if ShadeSourcesDefined(theme.colors) then
      Some(ThemeDocument(theme.displayName, VariantName(theme.themeType), true, map[], ExportColors(theme), TokenColors(theme)))
    else None
  }

  // ------------------------------------------------------- README, CHANGELOG

  /** Each tag in backticks. */
  function Backticked(tags: seq<string>): (r: seq<string>)
    ensures |r| == |tags| && forall i | 0 <= i < |tags| :: r[i] == "`" + tags[i] + "`"
  {
    seq(|tags|, i requires 0 <= i < |tags| => "`" + tags[i] + "`")
  }

  /** The README template (vsixExporter.ts:780-835), section by section, one string per line. */
  function ReadmeLines(theme: Theme, options: VsixOptions): seq<string> {
    ReadmeIntro(theme) + ReadmeInstallation(theme) + ReadmeFeatures(theme) + ReadmeBrand(theme)
    + ReadmeFeedback(options) + LicenseSection(options)
  }

  function ReadmeIntro(theme: Theme): seq<string> {
    [ "# " + theme.displayName,
      "",
      theme.description,
      "",
      "## Preview",
      "",
      "A beautiful VS Code theme inspired by " + theme.brand.displayName + " brand colors.",
      "" ]
  }

  function ReadmeInstallation(theme: Theme): seq<string> {
    [ "## Installation",
      "",
      "### From VS Code Marketplace",
      "1. Open VS Code",
      "2. Go to Extensions (Ctrl+Shift+X)",
      "3. Search for \"" + theme.displayName + "\"",
      "4. Click Install",
      "",
      "### Manual Installation",
      "1. Download the .vsix file",
      "2. Open VS Code",
      "3. Press Ctrl+Shift+P",
      "4. Type \"Extensions: Install from VSIX\"",
      "5. Select the downloaded .vsix file",
      "",
      "## Activation",
      "",
      "1. Press Ctrl+Shift+P",
      "2. Type \"Preferences: Color Theme\"",
      "3. Select \"" + theme.displayName + "\" from the list",
      "" ]
  }

  function ReadmeFeatures(theme: Theme): seq<string> {
    [ "## Features",
      "",
      "- Beautiful color scheme based on " + theme.brand.displayName,
      "- Optimized for " + VariantName(theme.themeType) + " mode",
      "- Syntax highlighting for all major languages",
      "- Carefully crafted UI colors for VS Code interface",
      "" ]
  }

  function ReadmeBrand(theme: Theme): seq<string> {
    [ "## Brand Colors",
      "",
      "- Primary: `" + theme.brand.primaryColor + "`",
      "- Secondary: `" + theme.brand.secondaryColor + "`",
      "",
      "## Tags",
      "",
      Join(Backticked(theme.metadata.tags), " "),
      "" ]
  }

  function ReadmeFeedback(options: VsixOptions): seq<string> {
    [ "## Feedback",
      "",
      "If you have any suggestions or issues, please feel free to open an issue on our [GitHub repository]("
        + OrElse(options.repository, DefaultRepository) + ").",
      "" ]
  }

  /** The closing lines; the template ends with a line break, hence the final empty line. */
  function LicenseSection(options: VsixOptions): seq<string> {
    [ "## License",
      "",
      OrElse(options.license, "MIT"),
      "",
      "---",
      "",
      "**Enjoy coding with style!** \U{1F3A8}",
      "" ]
  }

  function GenerateReadme(theme: Theme, options: VsixOptions): string {
    Join(ReadmeLines(theme, options), "\n")
  }

  /** Text inside one of the lines is inside the joined text. */
  lemma LineIncludes(lines: seq<string>, line: string, q: string)
    requires line in lines && Includes(line, q)
    ensures Includes(Join(lines, "\n"), q)
  {
    JoinIncludes(lines, "\n", line);
    IncludesTransitive(Join(lines, "\n"), line, q);
  }

  /** A line of one section is a line of the README. */
  lemma InSections(a: seq<string>, b: seq<string>, c: seq<string>, d: seq<string>, e: seq<string>, f: seq<string>, line: string)
    requires line in a || line in b || line in c || line in d || line in e || line in f
    ensures line in a + b + c + d + e + f
  {
  }

  /** Text inside a line of one README section is inside the README. */
  lemma SectionIncludes(theme: Theme, options: VsixOptions, line: string, q: string)
    requires line in ReadmeIntro(theme) || line in ReadmeBrand(theme)
          || line in ReadmeFeedback(options) || line in LicenseSection(options)
    requires Includes(line, q)
    ensures Includes(GenerateReadme(theme, options), q)
  {
    InSections(ReadmeIntro(theme), ReadmeInstallation(theme), ReadmeFeatures(theme), ReadmeBrand(theme),
      ReadmeFeedback(options), LicenseSection(options), line);
    LineIncludes(ReadmeLines(theme, options), line, q);
  }

  // The README names the theme, shows both brand colours and every tag in
  // backticks, and states the licence and the repository: the given ones, or
  // 'MIT' and the vsskin themes repository. One lemma per fact.

  lemma ReadmeNamesTheme(theme: Theme, options: VsixOptions)
    ensures Includes(GenerateReadme(theme, options), theme.displayName)
  {
    IncludesSuffix("# ", theme.displayName);
    SectionIncludes(theme, options, ReadmeIntro(theme)[0], theme.displayName);
  }

  lemma ReadmeShowsPrimary(theme: Theme, options: VsixOptions)
    ensures Includes(GenerateReadme(theme, options), theme.brand.primaryColor)
  {
    IncludesMiddle("- Primary: `", theme.brand.primaryColor, "`");
    SectionIncludes(theme, options, ReadmeBrand(theme)[2], theme.brand.primaryColor);
  }

  lemma ReadmeShowsSecondary(theme: Theme, options: VsixOptions)
    ensures Includes(GenerateReadme(theme, options), theme.brand.secondaryColor)
  {
    IncludesMiddle("- Secondary: `", theme.brand.secondaryColor, "`");
    SectionIncludes(theme, options, ReadmeBrand(theme)[3], theme.brand.secondaryColor);
  }

  /** Every metadata tag appears in backticks. */
  lemma ReadmeShowsTag(theme: Theme, options: VsixOptions, tag: string)
    requires tag in theme.metadata.tags
    ensures Includes(GenerateReadme(theme, options), "`" + tag + "`")
  {
    var i :| 0 <= i < |theme.metadata.tags| && theme.metadata.tags[i] == tag;
    assert Backticked(theme.metadata.tags)[i] == "`" + tag + "`";
    JoinIncludes(Backticked(theme.metadata.tags), " ", "`" + tag + "`");
    SectionIncludes(theme, options, ReadmeBrand(theme)[7], "`" + tag + "`");
  }

  lemma ReadmeLinksRepository(theme: Theme, options: VsixOptions)
    ensures Includes(GenerateReadme(theme, options), OrElse(options.repository, DefaultRepository))
  {
    var repository := OrElse(options.repository, DefaultRepository);
    IncludesMiddle("If you have any suggestions or issues, please feel free to open an issue on our [GitHub repository](",
      repository, ").");
    SectionIncludes(theme, options, ReadmeFeedback(options)[2], repository);
  }

  lemma ReadmeStatesLicense(theme: Theme, options: VsixOptions)
    ensures Includes(GenerateReadme(theme, options), OrElse(options.license, "MIT"))
  {
    IncludesSelf(LicenseSection(options)[2]);
    SectionIncludes(theme, options, LicenseSection(options)[2], OrElse(options.license, "MIT"));
  }

  /** The CHANGELOG template (vsixExporter.ts:840-873); `today` is the ISO date of the export. */
  function ChangelogLines(theme: Theme, options: VsixOptions, today: string): seq<string> {
    ChangelogRelease(theme, options, today) + ChangelogFeatures(theme) + ChangelogLanguages()
  }

  function ChangelogRelease(theme: Theme, options: VsixOptions, today: string): seq<string> {
    [ "# Change Log",
      "",
      "All notable changes to the \"" + theme.displayName + "\" theme will be documented in this file.",
      "",
      "## [" + OrElse(options.version, DefaultVersion) + "] - " + today,
      "",
      "### Added",
      "- Initial release",
      "- " + VariantName(theme.themeType) + " theme variant",
      "- Syntax highlighting for all major languages",
      "- VS Code UI integration",
      "- Based on " + theme.brand.displayName + " brand colors",
      "" ]
  }

  function ChangelogFeatures(theme: Theme): seq<string> {
    [ "### Features",
      "- Editor background: `" + Text(Lookup(theme, ThemeColor(EditorBackground))) + "`",
      "- Editor foreground: `" + Text(Lookup(theme, ThemeColor(EditorForeground))) + "`",
      "- Primary accent: `" + theme.brand.primaryColor + "`",
      "- Secondary accent: `" + theme.brand.secondaryColor + "`",
      "" ]
  }

  function ChangelogLanguages(): seq<string> {
    [ "### Supported Languages",
      "- JavaScript/TypeScript",
      "- Python",
      "- Java",
      "- C/C++",
      "- Rust",
      "- Go",
      "- HTML/CSS",
      "- JSON",
      "- Markdown",
      "- And many more...",
      "",
      "---",
      "",
      "Generated by VSskin - VS Code Theme Studio",
      "" ]
  }

  function GenerateChangelog(theme: Theme, options: VsixOptions, today: string): string {
    Join(ChangelogLines(theme, options, today), "\n")
  }

  /** The CHANGELOG heads its one release with the manifest's version and the export date, and names the theme. */
  lemma ChangelogHeading(theme: Theme, options: VsixOptions, today: string)
    ensures Includes(GenerateChangelog(theme, options, today),
      "## [" + GeneratePackageJson(theme, options).version + "] - " + today)
    ensures Includes(GenerateChangelog(theme, options, today), theme.displayName)
  {
    var release := ChangelogRelease(theme, options, today);
    IncludesSelf(release[4]);
    ReleaseIncludes(theme, options, today, release[4], release[4]);
    IncludesMiddle("All notable changes to the \"", theme.displayName, "\" theme will be documented in this file.");
    ReleaseIncludes(theme, options, today, release[2], theme.displayName);
  }

  /** Text inside a line of the release notes is inside the CHANGELOG. */
  lemma ReleaseIncludes(theme: Theme, options: VsixOptions, today: string, line: string, q: string)
    requires line in ChangelogRelease(theme, options, today) && Includes(line, q)
    ensures Includes(GenerateChangelog(theme, options, today), q)
  {
    var lines := ChangelogLines(theme, options, today);
    assert line in lines;
    LineIncludes(lines, line, q);
  }

  // ------------------------------------------------------------- the archive

  /** What a file of the archive holds; serialisation to bytes is not modelled. */
  datatype ArchiveEntry =
    | Manifest(package: PackageJson)
    | ThemeFile(document: ThemeDocument)
    | Markdown(text: string)
    | Base64Image(payload: Option<string>)

  /** What the icon step produced: a data URL (empty when there was no canvas) or an exception. */
  datatype IconOutcome = IconFailed | IconRendered(dataUrl: string)

  /** Whether the export writes an icon: a data URL came back and it is not empty. */
  predicate HasIcon(icon: IconOutcome) {
    icon.IconRendered? && icon.dataUrl != ""
  }

  /** `dataUrl.split(',')[1]`: the text between the first comma and the next; None without a comma. */
  function DataUrlPayload(url: string): Option<string> {
    if ',' in url then
      var rest := url[FirstIndex(url, ',') + 1..];
      Some(if ',' in rest then rest[..FirstIndex(rest, ',')] else rest)
    else None
  }

  /** A zip archive being filled: file name to content. */
  class Archive {
    var files: map<string, ArchiveEntry>

    constructor()
      ensures files == map[]
    {
      files := map[];
    }

    /** `zip.file(name, content)`: adds the file, replacing one of the same name. */
    method AddFile(name: string, content: ArchiveEntry)
      modifies this
      ensures files == old(files)[name := content]
    {
      files := files[name := content];
    }
  }

  /** The files of a completed export, given the documents it wrote. */
  function ArchiveFiles(id: string, manifest: PackageJson, document: ThemeDocument, readme: string, changelog: string, icon: IconOutcome)
    : map<string, ArchiveEntry>
  {
    var files := map[
      "package.json" := Manifest(manifest),
      ThemePath(id) := ThemeFile(document),
      "README.md" := Markdown(readme),
      "CHANGELOG.md" := Markdown(changelog)];
    if HasIcon(icon) then files["icon.png" := Base64Image(DataUrlPayload(icon.dataUrl))] else files
  }

  /** The files of a completed export of `theme`. */
  function ExportedFiles(theme: Theme, options: VsixOptions, today: string, icon: IconOutcome): map<string, ArchiveEntry>
    requires ShadeSourcesDefined(theme.colors)
  {
    ArchiveFiles(theme.id, GeneratePackageJson(theme, options), GenerateThemeJson(theme).value,
      GenerateReadme(theme, options), GenerateChangelog(theme, options, today), icon)
  }

  /**
   * `exportAsVSIX` up to the compression step. It stops with only the
   * manifest written when the theme document throws, and an icon failure is
   * caught and skipped.
   */
  method ExportAsVsix(theme: Theme, options: VsixOptions, today: string, icon: IconOutcome)
    returns (zip: Archive, completed: bool)
    ensures fresh(zip)
    ensures completed <==> ShadeSourcesDefined(theme.colors)
    ensures completed ==> zip.files == ExportedFiles(theme, options, today, icon)
    ensures !completed ==> zip.files == map["package.json" := Manifest(GeneratePackageJson(theme, options))]
  {
    var manifest := GeneratePackageJson(theme, options);
    zip := new Archive();
    zip.AddFile("package.json", Manifest(manifest));
    var document := GenerateThemeJson(theme);
    if document.None? {
      completed := false;
      return;
    }
    AddThemeFiles(zip, theme.id, manifest, document.value,
      GenerateReadme(theme, options), GenerateChangelog(theme, options, today), icon);
    completed := true;
  }

  /** The steps of `exportAsVSIX` after the manifest: theme file, README, CHANGELOG, then the icon if one came back. */
  method AddThemeFiles(zip: Archive, id: string, manifest: PackageJson, document: ThemeDocument,
                       readme: string, changelog: string, icon: IconOutcome)
    modifies zip
    requires zip.files == map["package.json" := Manifest(manifest)]
    ensures zip.files == ArchiveFiles(id, manifest, document, readme, changelog, icon)
  {
    zip.AddFile(ThemePath(id), ThemeFile(document));
    zip.AddFile("README.md", Markdown(readme));
    zip.AddFile("CHANGELOG.md", Markdown(changelog));
    match icon {
      case IconRendered(url) =>
        if url != "" {
          zip.AddFile("icon.png", Base64Image(DataUrlPayload(url)));
        }
      case IconFailed =>
    }
  }

  /**
   * A completed export holds the manifest, the theme document under
   * themes/, the README and the CHANGELOG as four distinct files, and a
   * fifth, icon.png, exactly when the icon step gave a non-empty data URL.
   */
  lemma ArchiveLayout(id: string, manifest: PackageJson, document: ThemeDocument, readme: string, changelog: string, icon: IconOutcome)
    ensures var files := ArchiveFiles(id, manifest, document, readme, changelog, icon);
      && files["package.json"] == Manifest(manifest)
      && files[ThemePath(id)] == ThemeFile(document)
      && files["README.md"] == Markdown(readme)
      && files["CHANGELOG.md"] == Markdown(changelog)
      && ("icon.png" in files <==> HasIcon(icon))
      && |files.Keys| == (if HasIcon(icon) then 5 else 4)
  {
    var path := ThemePath(id);
    assert path[0] == 't';
    assert path != "package.json" && path != "README.md" && path != "CHANGELOG.md" && path != "icon.png" by {
      assert "package.json"[0] == 'p' && "README.md"[0] == 'R' && "CHANGELOG.md"[0] == 'C' && "icon.png"[0] == 'i';
    }
    var files := ArchiveFiles(id, manifest, document, readme, changelog, icon);
    var base := {"package.json", path, "README.md", "CHANGELOG.md"};
    assert |base| == 4;
    if HasIcon(icon) {
      assert files.Keys == base + {"icon.png"};
    } else {
      assert files.Keys == base;
    }
  }

  /** The manifest's theme path names the file the archive writes the theme document to. */
  lemma ManifestPathInArchive(theme: Theme, options: VsixOptions, document: ThemeDocument, readme: string, changelog: string, icon: IconOutcome)
    ensures var manifest := GeneratePackageJson(theme, options);
      var path := manifest.themes[0].path;
      path[..2] == "./" && path[2..] in ArchiveFiles(theme.id, manifest, document, readme, changelog, icon)
  {
    var manifest := GeneratePackageJson(theme, options);
    assert manifest.themes[0].path == "./" + ThemePath(theme.id);
    ArchiveLayout(theme.id, manifest, document, readme, changelog, icon);
  }

  /** `downloadVSIX`'s file name: 'vsskin-', the id, '-', the version or '1.0.0', '.vsix'. */
  function DownloadFileName(theme: Theme, options: VsixOptions): string {
    "vsskin-" + theme.id + "-" + OrElse(options.version, DefaultVersion) + ".vsix"
  }

  /** The download is named after the manifest's name and version. */
  lemma DownloadNameMatchesManifest(theme: Theme, options: VsixOptions)
    ensures var p := GeneratePackageJson(theme, options);
      DownloadFileName(theme, options) == p.name + "-" + p.version + ".vsix"
  {
  }
}

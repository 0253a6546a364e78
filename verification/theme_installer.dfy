/**
 * The simple installer (vsskin-app/src/lib/themeInstaller.ts): a manifest with
 * sanitised names, a nine-rule theme document with fallbacks, a plain-text
 * "package" of four files, the extension id with its install command, and the
 * installation instructions. It is independent of the VSIX exporter.
 */
module ThemeInstaller {
  import opened Wrappers
  import opened Builtins
  import opened Lists
  import opened Types
  import opened Documents
  import opened ColorMath

  // ------------------------------------------------------------ sanitising

  /** The characters `[a-z0-9-]` a sanitised theme name consists of. */
  predicate IsNameChar(c: char) {
    'a' <= c <= 'z' || '0' <= c <= '9' || c == '-'
  }

  /** The characters `[a-z0-9]` a sanitised publisher consists of. */
  predicate IsPublisherChar(c: char) {
    'a' <= c <= 'z' || '0' <= c <= '9'
  }

  /** `.replace(/[^a-z0-9-]/g, '-')`. */
  function DashOutside(s: string): (r: string)
    ensures |r| == |s|
    ensures forall i | 0 <= i < |s| :: IsNameChar(s[i]) ==> r[i] == s[i]
    ensures forall i | 0 <= i < |s| :: !IsNameChar(s[i]) ==> r[i] == '-'
  {
    seq(|s|, i requires 0 <= i < |s| => if IsNameChar(s[i]) then s[i] else '-')
  }

  /**
   * The theme-name sanitisation: lower-case the name, then turn every
   * character outside `[a-z0-9-]` into '-'. The length is kept, only
   * `[a-z0-9-]` comes out, and an allowed character keeps its place.
   */
  function SanitizeName(name: string): (r: string)
    ensures |r| == |name|
    ensures forall i | 0 <= i < |r| :: IsNameChar(r[i])
    ensures forall i | 0 <= i < |name| :: IsNameChar(LowerChar(name[i])) ==> r[i] == LowerChar(name[i])
    ensures forall i | 0 <= i < |name| :: !IsNameChar(LowerChar(name[i])) ==> r[i] == '-'
  {
    DashOutside(ToLower(name))
  }

  /** Sanitising a sanitised name changes nothing. */
  lemma SanitizeNameIdempotent(name: string)
    ensures SanitizeName(SanitizeName(name)) == SanitizeName(name)
  {
    var once := SanitizeName(name);
    var twice := SanitizeName(once);
    forall i | 0 <= i < |once|
      ensures twice[i] == once[i]
    {
      assert LowerChar(once[i]) == once[i];
    }
  }

  /**
   * The publisher sanitisation: lower-case the brand name and drop every
   * character outside `[a-z0-9]`. Never longer than the input, only
   * `[a-z0-9]` comes out, and every allowed character of the lowered name
   * is kept.
   */
  function SanitizePublisher(name: string): (r: string)
    ensures |r| <= |name|
    ensures forall i | 0 <= i < |r| :: IsPublisherChar(r[i])
    ensures forall c :: c in r <==> c in ToLower(name) && IsPublisherChar(c)
  {
    Filter(IsPublisherChar, ToLower(name))
  }

  /** The kept characters are those of the lowered name, in their order. */
  lemma PublisherKeepsOrder(name: string)
    ensures IsSubsequence(SanitizePublisher(name), ToLower(name))
  {
    FilterIsSubsequence(IsPublisherChar, ToLower(name));
  }

  /** Sanitising a sanitised publisher changes nothing. */
  lemma SanitizePublisherIdempotent(name: string)
    ensures SanitizePublisher(SanitizePublisher(name)) == SanitizePublisher(name)
  {
    var once := SanitizePublisher(name);
    assert ToLower(once) == once;
    FilterAll(IsPublisherChar, once);
  }

  // ------------------------------------------------------------ package.json

  /** The manifest `generateExtensionPackage` builds. */
  datatype ThemePackage = ThemePackage(
    name: string,
    displayName: string,
    description: string,
    version: string,
    publisher: string,
    vscodeEngine: string,
    categories: seq<string>,
    themes: seq<ThemeContribution>,
    keywords: seq<string>,
    repository: Repository)

  const PackageVersion := "1.0.0"
  const InstallerRepository := "https://github.com/vsskin/themes"

  /** The key of the theme document among the package files. */
  function ThemeFileKey(theme: Theme): string {
    "themes/" + SanitizeName(theme.name) + "-color-theme.json"
  }

  /** The description used when the theme has none. */
  function FallbackDescription(theme: Theme): string {
    "A VS Code theme inspired by " + theme.brand.name + "'s brand colors"
  }

  /**
   * `generateExtensionPackage`: the sanitised name with '-theme', the
   * publisher 'vsskin-' plus the sanitised brand name, version 1.0.0, one
   * contribution whose path is the package's theme file, and the
   * description falling back to a brand sentence when empty.
   */
  function GenerateExtensionPackage(theme: Theme): (p: ThemePackage)
    ensures p.name == SanitizeName(theme.name) + "-theme"
    ensures p.displayName == theme.name + " Theme"
    ensures p.publisher == "vsskin-" + SanitizePublisher(theme.brand.name)
    ensures p.version == PackageVersion
    ensures theme.description != "" ==> p.description == theme.description
    ensures theme.description == "" ==> p.description == FallbackDescription(theme)
    ensures |p.themes| == 1 && p.themes[0].path == "./" + ThemeFileKey(theme)
    ensures p.themes[0].uiTheme == "vs-dark" <==> theme.themeType == Dark
    ensures |p.keywords| == 4 + |theme.tags|
    ensures p.keywords[..4] == ["theme", "color-theme", ToLower(theme.brand.name), VariantName(theme.themeType)]
    ensures p.keywords[4..] == theme.tags
  {
    var sanitized := SanitizeName(theme.name);
    ThemePackage(
      name := sanitized + "-theme",
      displayName := theme.name + " Theme",
      description := OrString(theme.description, FallbackDescription(theme)),
      version := PackageVersion,
      publisher := "vsskin-" + SanitizePublisher(theme.brand.name),
      vscodeEngine := "^1.74.0",
      categories := ["Themes"],
      themes := [ThemeContribution(theme.name, UiTheme(theme.themeType), "./themes/" + sanitized + "-color-theme.json")],
      keywords := ["theme", "color-theme", ToLower(theme.brand.name), VariantName(theme.themeType)] + theme.tags,
      repository := Repository("git", InstallerRepository))
  }

  /** The manifest name is made of `[a-z0-9-]` only, whatever the theme name. */
  lemma PackageNameIsSafe(theme: Theme)
    ensures forall i | 0 <= i < |GenerateExtensionPackage(theme).name| :: IsNameChar(GenerateExtensionPackage(theme).name[i])
  {
    var p := GenerateExtensionPackage(theme);
    var s := SanitizeName(theme.name);
    forall i | 0 <= i < |p.name|
      ensures IsNameChar(p.name[i])
    {
      if i < |s| {
        assert p.name[i] == s[i];
      } else {
        assert p.name[i] == "-theme"[i - |s|];
      }
    }
  }

  // ------------------------------------------------------------ theme document

  /** The theme document `generateThemeJson` builds; `kind` is its `type`. */
  datatype InstallerThemeDocument = InstallerThemeDocument(
    name: string,
    kind: Variant,
    colors: ThemeColors,
    tokenColors: seq<TokenRule>)

  /** `theme.colors[key]`, undefined when the key is absent. */
  function Color(theme: Theme, t: Token): (c: Option<string>)
    ensures c.Some? <==> t in theme.colors
    ensures c.Some? ==> c.value == theme.colors[t]
  {
    if t in theme.colors then Some(theme.colors[t]) else None
  }

  /** `textLink.foreground || brand.primaryColor`, the colour of keywords, numbers, functions and classes. */
  function AccentColor(theme: Theme): (c: string)
    ensures TextLinkForeground in theme.colors && theme.colors[TextLinkForeground] != "" ==> c == theme.colors[TextLinkForeground]
    ensures TextLinkForeground !in theme.colors || theme.colors[TextLinkForeground] == "" ==> c == theme.brand.primaryColor
  {
    OrElse(Color(theme, TextLinkForeground), theme.brand.primaryColor)
  }

  /** `gitDecoration.addedResourceForeground || '#4CAF50'`, the colour of strings. */
  function StringColor(theme: Theme): (c: string)
    ensures GitDecorationAddedResourceForeground in theme.colors && theme.colors[GitDecorationAddedResourceForeground] != ""
      ==> c == theme.colors[GitDecorationAddedResourceForeground]
    ensures GitDecorationAddedResourceForeground !in theme.colors || theme.colors[GitDecorationAddedResourceForeground] == ""
      ==> c == "#4CAF50"
  {
    OrElse(Color(theme, GitDecorationAddedResourceForeground), "#4CAF50")
  }

  /** The nine token rules, in order. */
  function InstallerTokenColors(theme: Theme): seq<TokenRule> {
    var fg := Color(theme, EditorForeground);
    [ TokenRule(None, None, TokenSettings(fg, Color(theme, EditorBackground), None)),
      ColoredStyled("Comment", ["comment", "punctuation.definition.comment"], Text(fg) + "80", "italic"),
      TokenRule(Some("Variables"), Some(["variable", "string constant.other.placeholder"]), TokenSettings(fg, None, None)),
      Colored("Keywords", ["keyword", "storage.type", "storage.modifier"], AccentColor(theme)),
      TokenRule(Some("Operators"), Some(["keyword.operator"]), TokenSettings(fg, None, None)),
      Colored("Numbers", ["constant.numeric"], AccentColor(theme)),
      Colored("Strings", ["string"], StringColor(theme)),
      Colored("Functions", ["entity.name.function", "support.function"], AccentColor(theme)),
      Colored("Classes", ["entity.name.class", "support.class"], AccentColor(theme)) ]
  }

  /**
   * `generateThemeJson` of the installer: the colours are passed through,
   * the first rule carries the editor colours, comments the editor
   * foreground with '80' appended, keywords, numbers, functions and classes
   * the accent colour, and strings the string colour.
   */
  function InstallerThemeJson(theme: Theme): (doc: InstallerThemeDocument)
    ensures doc.name == theme.name && doc.kind == theme.themeType && doc.colors == theme.colors
    ensures |doc.tokenColors| == 9
    ensures doc.tokenColors[0].settings.foreground == Color(theme, EditorForeground)
    ensures doc.tokenColors[0].settings.background == Color(theme, EditorBackground)
    ensures doc.tokenColors[1].settings.foreground == Some(Text(Color(theme, EditorForeground)) + "80")
    ensures doc.tokenColors[1].settings.fontStyle == Some("italic")
    ensures doc.tokenColors[2].settings.foreground == Color(theme, EditorForeground)
    ensures doc.tokenColors[3].settings.foreground == Some(AccentColor(theme))
    ensures doc.tokenColors[4].settings.foreground == Color(theme, EditorForeground)
    ensures doc.tokenColors[5].settings.foreground == Some(AccentColor(theme))
    ensures doc.tokenColors[6].settings.foreground == Some(StringColor(theme))
    ensures doc.tokenColors[7].settings.foreground == Some(AccentColor(theme))
    ensures doc.tokenColors[8].settings.foreground == Some(AccentColor(theme))
  {
    InstallerThemeDocument(theme.name, theme.themeType, theme.colors, InstallerTokenColors(theme))
  }

  /** The names of the installer's nine rules, in order; the first rule has none. */
  const InstallerRuleNames: seq<Option<string>> := [
    None, Some("Comment"), Some("Variables"), Some("Keywords"), Some("Operators"),
    Some("Numbers"), Some("Strings"), Some("Functions"), Some("Classes")]

  /** The scope selectors of the installer's nine rules, in order; the first rule has none. */
  const InstallerRuleScopes: seq<Option<seq<string>>> := [
    None,
    Some(["comment", "punctuation.definition.comment"]),
    Some(["variable", "string constant.other.placeholder"]),
    Some(["keyword", "storage.type", "storage.modifier"]),
    Some(["keyword.operator"]),
    Some(["constant.numeric"]),
    Some(["string"]),
    Some(["entity.name.function", "support.function"]),
    Some(["entity.name.class", "support.class"])]

  /**
   * Every theme gets the same nine rules: the same names and scopes, italics
   * only on comments, and a background only on the first rule.
   */
  lemma InstallerRulesFixed(theme: Theme)
    ensures var rules := InstallerThemeJson(theme).tokenColors;
      forall i | 0 <= i < 9 ::
        && rules[i].name == InstallerRuleNames[i]
        && rules[i].scope == InstallerRuleScopes[i]
        && rules[i].settings.fontStyle == (if i == 1 then Some("italic") else None)
        && (i != 0 ==> rules[i].settings.background == None)
  {
  }

  /** The comment colour is the editor foreground at half opacity, as `adjustOpacity(fg, 0.5)` writes it. */
  lemma CommentAtHalfOpacity(theme: Theme)
    requires EditorForeground in theme.colors
    ensures InstallerThemeJson(theme).tokenColors[1].settings.foreground
      == Some(AdjustOpacity(theme.colors[EditorForeground], 0.5))
  {
    OpacityExamples(theme.colors[EditorForeground]);
  }

  // ------------------------------------------------------------ README and CHANGELOG

  /** The installer's README template, one entry per line; it ends with a line break. */
  function InstallerReadmeLines(theme: Theme): seq<string> {
    [ "# " + theme.name + " Theme",
      "",
      OrString(theme.description, "A VS Code theme inspired by " + theme.brand.name + "'s brand colors."),
      "" ]
    + ReadmeInstallSteps
    + [ ReadmeSelectStep + theme.name + "\"",
        "",
        "## Brand Colors",
        "",
        "- Primary: " + theme.brand.primaryColor,
        "- Secondary: " + OrString(theme.brand.secondaryColor, "N/A"),
        "- Background: " + Text(Color(theme, EditorBackground)),
        "- Foreground: " + Text(Color(theme, EditorForeground)),
        "",
        "## Features",
        "",
        "- Optimized for " + VariantName(theme.themeType) + " mode",
        "- Based on " + theme.brand.name + " brand guidelines" ]
    + ReadmeClosing
  }

  const ReadmeInstallSteps: seq<string> := [
    "## Installation",
    "",
    "1. Download this theme package",
    "2. Open VS Code",
    "3. Go to Extensions (Ctrl+Shift+X)",
    "4. Click on the three dots menu and select \"Install from VSIX...\"",
    "5. Select the downloaded theme file",
    "6. Reload VS Code when prompted" ]

  const ReadmeSelectStep := "7. Go to File > Preferences > Color Theme and select \""

  const ReadmeClosing: seq<string> := [
    "- Supports all major programming languages",
    "- Carefully selected color palette for readability",
    "",
    "## Feedback",
    "",
    "Found an issue or have a suggestion? Visit [vsskin.com](https://vsskin.com) to browse more themes or provide feedback.",
    "",
    "---",
    "",
    "Generated by [vsskin](https://vsskin.com) - VS Code Theme Studio",
    "" ]

  function InstallerReadme(theme: Theme): string {
    Join(InstallerReadmeLines(theme), "\n")
  }

  /** The installer's CHANGELOG template; `today` is the ISO date of the download. */
  function InstallerChangelogLines(theme: Theme, today: string): seq<string> {
    [ "# Changelog",
      "",
      ChangelogIntro + theme.name + ChangelogIntroEnd,
      "" ]
    + [ReleaseHeading(today)]
    + [ "",
        "### Added",
        "- Initial release of " + theme.name + " theme",
        "- " + VariantName(theme.themeType) + " mode optimized color scheme",
        "- Based on " + theme.brand.name + " brand colors",
        ChangelogLanguages,
        "",
        "### Colors",
        "- Primary brand color: " + theme.brand.primaryColor,
        "- Secondary brand color: " + OrString(theme.brand.secondaryColor, "N/A"),
        "- Editor background: " + Text(Color(theme, EditorBackground)),
        "- Editor foreground: " + Text(Color(theme, EditorForeground)),
        "",
        "---",
        "",
        ChangelogFooter,
        "" ]
  }

  /** The heading of the one release the CHANGELOG lists. */
  function ReleaseHeading(today: string): string {
    "## [" + PackageVersion + "] - " + today
  }

  const ChangelogIntro := "All notable changes to the \""
  const ChangelogIntroEnd := "\" theme will be documented in this file."
  const ChangelogLanguages := "- Support for all major programming languages"
  const ChangelogFooter := "Generated by [vsskin](https://vsskin.com)"

  function InstallerChangelog(theme: Theme, today: string): string {
    Join(InstallerChangelogLines(theme, today), "\n")
  }

  /** The README's title line is the manifest's display name. */
  lemma ReadmeTitledByManifest(theme: Theme)
    ensures Includes(InstallerReadme(theme), "# " + GenerateExtensionPackage(theme).displayName)
  {
    var lines := InstallerReadmeLines(theme);
    assert lines[0] == "# " + (theme.name + " Theme") by {
      assert lines[0] == "# " + theme.name + " Theme";
    }
    IncludesSelf(lines[0]);
    JoinIncludes(lines, "\n", lines[0]);
  }

  /** The CHANGELOG's release heading carries the manifest's version and the date. */
  lemma ChangelogHeadedByVersion(theme: Theme, today: string)
    ensures Includes(InstallerChangelog(theme, today), "## [" + GenerateExtensionPackage(theme).version + "] - " + today)
  {
    var lines := InstallerChangelogLines(theme, today);
    IncludesSelf(ReleaseHeading(today));
    JoinIncludes(lines, "\n", ReleaseHeading(today));
  }

  // ------------------------------------------------------------ the text package

  /** One file of the package: a '=== name ===' header line, the content, a line break. */
  function FileSection(name: string, content: string): string {
    "=== " + name + " ===\n" + content + "\n"
  }

  /** `Object.entries(files).map(...).join('\n\n')`. */
  function PackageText(files: seq<(string, string)>): string {
    Join(seq(|files|, i requires 0 <= i < |files| => FileSection(files[i].0, files[i].1)), "\n\n")
  }

  /**
   * The four files of `createThemePackage`, in insertion order. JSON
   * rendering is not modelled: `manifestJson` and `themeJson` stand for the
   * rendered manifest and theme document.
   */
  function PackageFiles(theme: Theme, manifestJson: string, themeJson: string, today: string): (files: seq<(string, string)>)
    ensures |files| == 4
    ensures files[0].0 == "package.json" && files[1].0 == ThemeFileKey(theme)
    ensures files[2].0 == "README.md" && files[3].0 == "CHANGELOG.md"
    ensures files[0].1 == manifestJson && files[1].1 == themeJson
  {
    [ ("package.json", manifestJson),
      (ThemeFileKey(theme), themeJson),
      ("README.md", InstallerReadme(theme)),
      ("CHANGELOG.md", InstallerChangelog(theme, today)) ]
  }

  function CreateThemePackage(theme: Theme, manifestJson: string, themeJson: string, today: string): string {
    PackageText(PackageFiles(theme, manifestJson, themeJson, today))
  }

  /** Four files are written as their four sections, in order, separated by blank lines. */
  lemma {:induction false} PackageTextOfFour(files: seq<(string, string)>)
    requires |files| == 4
    ensures PackageText(files)
      == FileSection(files[0].0, files[0].1) + "\n\n"
         + (FileSection(files[1].0, files[1].1) + "\n\n"
         + (FileSection(files[2].0, files[2].1) + "\n\n"
         + FileSection(files[3].0, files[3].1)))
  {
    var sections := seq(|files|, i requires 0 <= i < |files| => FileSection(files[i].0, files[i].1));
    var rest1, rest2 := sections[1..], sections[2..];
    assert rest1[1..] == rest2 && rest2[1..] == [sections[3]];
    assert Join(rest2, "\n\n") == sections[2] + "\n\n" + sections[3];
    assert Join(rest1, "\n\n") == sections[1] + "\n\n" + Join(rest2, "\n\n");
  }

  /**
   * `createThemePackage`'s text: the manifest, the theme document under its
   * sanitised key, the README and the CHANGELOG, each with its header,
   * separated by blank lines.
   */
  lemma CreateThemePackageLayout(theme: Theme, manifestJson: string, themeJson: string, today: string)
    ensures CreateThemePackage(theme, manifestJson, themeJson, today)
      == FileSection("package.json", manifestJson) + "\n\n"
         + (FileSection(ThemeFileKey(theme), themeJson) + "\n\n"
         + (FileSection("README.md", InstallerReadme(theme)) + "\n\n"
         + FileSection("CHANGELOG.md", InstallerChangelog(theme, today))))
  {
    PackageTextOfFour(PackageFiles(theme, manifestJson, themeJson, today));
  }

  /** The contribution path of the manifest names the theme file of the package. */
  lemma ManifestPathIsPackageFile(theme: Theme, manifestJson: string, themeJson: string, today: string)
    ensures GenerateExtensionPackage(theme).themes[0].path == "./" + PackageFiles(theme, manifestJson, themeJson, today)[1].0
  {
  }

  // ------------------------------------------------------------ installing

  /** The id under which VS Code knows the extension: publisher, '.', name. */
  function ExtensionId(theme: Theme): string {
    "vsskin-" + SanitizePublisher(theme.brand.name) + "." + SanitizeName(theme.name) + "-theme"
  }

  /** The id is the manifest's publisher and name joined by '.'. */
  lemma ExtensionIdOfManifest(theme: Theme)
    ensures var p := GenerateExtensionPackage(theme);
      ExtensionId(theme) == p.publisher + "." + p.name
  {
  }

  /**
   * The command `copyInstallCommand` puts on the clipboard: it installs the
   * extension the generated manifest describes.
   */
  function InstallCommand(theme: Theme): (command: string)
    ensures var p := GenerateExtensionPackage(theme);
      command == "code --install-extension " + p.publisher + "." + p.name
  {
    ExtensionIdOfManifest(theme);
    "code --install-extension " + ExtensionId(theme)
  }

  /** The result of `installTheme`. */
  datatype InstallationResult = InstallationResult(
    success: bool,
    message: string,
    downloadUrl: Option<string>,
    extensionId: Option<string>)

  /** The name of the downloaded text package. */
  function DownloadFileName(theme: Theme): string {
    SanitizeName(theme.name) + "-theme-v" + PackageVersion + ".txt"
  }

  /**
   * `installTheme`. Creating the object URL and clicking the link are I/O:
   * `download` is the URL the browser handed out, or None when packaging or
   * downloading threw.
   */
  function InstallTheme(theme: Theme, download: Option<string>): (r: InstallationResult)
    ensures r.success <==> download.Some?
    ensures r.success ==> r.downloadUrl == download && r.extensionId == Some(ExtensionId(theme))
    ensures !r.success ==> r.downloadUrl == None && r.extensionId == None
  {
    match download
    case Some(url) => InstallationResult(true, theme.name + DownloadedMessage, Some(url), Some(ExtensionId(theme)))
    case None => InstallationResult(false, PackagingFailedMessage, None, None)
  }

  const DownloadedMessage := " theme package downloaded successfully! Open the file to see installation instructions."
  const PackagingFailedMessage := "Failed to create theme package. Please try again later."

  /** A successful install reports the id the install command installs. */
  lemma InstallReportsCommandId(theme: Theme, url: string)
    ensures var r := InstallTheme(theme, Some(url));
      r.extensionId.Some? && InstallCommand(theme) == "code --install-extension " + r.extensionId.value
  {
  }

  /** The download name is the sanitised name with the fixed suffix; its stem is made of `[a-z0-9-]` only. */
  lemma DownloadNameIsSafe(theme: Theme)
    ensures var n := DownloadFileName(theme);
      var stem := SanitizeName(theme.name);
      n == stem + "-theme-v1.0.0.txt" && forall i | 0 <= i < |stem| :: IsNameChar(n[i])
  {
    var stem := SanitizeName(theme.name);
    var n := DownloadFileName(theme);
    assert n == stem + ("-theme-v" + PackageVersion + ".txt");
    forall i | 0 <= i < |stem|
      ensures IsNameChar(n[i])
    {
      assert n[i] == stem[i];
    }
  }

  // ------------------------------------------------------------ instructions

  /** `getInstallationInstructions`: nine steps; the eighth names the theme. */
  function InstallationInstructions(theme: Theme): (steps: seq<string>)
    ensures |steps| == 9
    ensures steps[7] == "Select \"" + theme.name + "\" from the list"
  {
    [ DownloadStep, OpenStep, PaletteStep, InstallStep, BrowseStep, ReloadStep, PreferencesStep,
      "Select \"" + theme.name + "\" from the list",
      EnjoyStep ]
  }

  const DownloadStep := "Download the theme package by clicking the Install button"
  const OpenStep := "Open VS Code on your computer"
  const PaletteStep := "Press Ctrl+Shift+P (or Cmd+Shift+P on Mac) to open the command palette"
  const InstallStep := "Type \"Extensions: Install from VSIX\" and select it"
  const BrowseStep := "Browse and select the downloaded theme file"
  const ReloadStep := "Reload VS Code when prompted"
  const PreferencesStep := "Go to File > Preferences > Color Theme (or Code > Preferences > Color Theme on Mac)"
  const EnjoyStep := "Enjoy your new theme!"

  /** Only the eighth step depends on the theme. */
  lemma InstructionsDifferOnlyInName(a: Theme, b: Theme)
    ensures forall i | 0 <= i < 9 && i != 7 :: InstallationInstructions(a)[i] == InstallationInstructions(b)[i]
  {
  }
}

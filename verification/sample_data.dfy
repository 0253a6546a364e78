/**
 * The gallery's built-in catalogue: five brands, three themes, and the three
 * queries over the themes (vsskin-app/src/data/sampleData.ts).
 *
 * The fixture brands do not set `domain`, `primary` or `colors`; they are the
 * empty string here, and so is the code text of the preview snippets, which no
 * operation reads.
 */
module SampleData {
  import opened Wrappers
  import opened Builtins
  import opened Lists
  import opened Types

  // ------------------------------------------------------------------ brands

  const NoBrandColors := BrandColors("", "", "")

  const Spotify := Brand("spotify", "spotify", "Spotify", "/brands/spotify-logo.svg", "#1ed760", "#1db954",
    "https://spotify.com", "", "", NoBrandColors,
    Guidelines(GuidelineColors(["#1ed760", "#1db954", "#1aa34a"], ["#191414", "#121212"], ["#ffffff", "#b3b3b3"]),
      BrandFonts("Circular", "Helvetica Neue"), "/brands/spotify-logo.svg", "https://spotify.com"))

  const Apple := Brand("apple", "apple", "Apple", "/brands/apple-logo.svg", "#007aff", "#5856d6",
    "https://apple.com", "", "", NoBrandColors,
    Guidelines(GuidelineColors(["#007aff", "#5856d6", "#ff9500"], ["#1c1c1e", "#2c2c2e"], ["#ffffff", "#f2f2f7"]),
      BrandFonts("SF Pro", "SF Mono"), "/brands/apple-logo.svg", "https://apple.com"))

  const GitHub := Brand("github", "github", "GitHub", "/brands/github-logo.svg", "#24292e", "#0366d6",
    "https://github.com", "", "", NoBrandColors,
    Guidelines(GuidelineColors(["#24292e", "#0366d6", "#28a745"], ["#fafbfc", "#f6f8fa"], ["#d73a49", "#6f42c1"]),
      BrandFonts("Inter", "SF Mono"), "/brands/github-logo.svg", "https://github.com"))

  const Discord := Brand("discord", "discord", "Discord", "/brands/discord-logo.svg", "#5865f2", "#4752c4",
    "https://discord.com", "", "", NoBrandColors,
    Guidelines(GuidelineColors(["#5865f2", "#4752c4", "#3c45a5"], ["#2c2f33", "#23272a"], ["#99aab5", "#7289da"]),
      BrandFonts("Whitney", "Consolas"), "/brands/discord-logo.svg", "https://discord.com"))

  const Slack := Brand("slack", "slack", "Slack", "/brands/slack-logo.svg", "#4a154b", "#36c5f0",
    "https://slack.com", "", "", NoBrandColors,
    Guidelines(GuidelineColors(["#4a154b", "#36c5f0", "#2eb67d"], ["#e01e5a", "#ecb22e"], ["#ffffff", "#f8f8f8"]),
      BrandFonts("Lato", "Monaco"), "/brands/slack-logo.svg", "https://slack.com"))

  /** `sampleBrands`. */
  const SampleBrands: seq<Brand> := [Spotify, Apple, GitHub, Discord, Slack]

  // ------------------------------------------------------------------ themes

  /** The same six installation steps appear in every fixture theme. */
  const InstallSteps: seq<string> := [
    "Download the theme file",
    "Open VS Code",
    "Press Ctrl+Shift+P (Cmd+Shift+P on Mac)",
    "Type \"Extensions: Install from VSIX\"",
    "Select the downloaded file",
    "Reload VS Code when prompted"]

  const Compatibility: seq<string> := ["1.70.0", "1.80.0", "1.90.0"]

  const SpotifyDarkColors: ThemeColors := map[
    EditorBackground := "#191414", EditorForeground := "#ffffff",
    ActivityBarBackground := "#121212", ActivityBarForeground := "#1ed760",
    SideBarBackground := "#121212", SideBarForeground := "#b3b3b3",
    StatusBarBackground := "#1ed760", StatusBarForeground := "#000000",
    TitleBarActiveBackground := "#191414", TitleBarActiveForeground := "#ffffff"]

  const SpotifyDarkDescription := "A dark theme inspired by Spotify's signature green and black design"


  const SpotifyDarkPreview := ThemePreview(["/previews/spotify-dark-1.png", "/previews/spotify-dark-2.png"],
    [CodeSnippet("typescript", "", "React Component")], "/previews/spotify-dark-mini.png")

  const SpotifyDarkInstallation := ThemeInstallation("/downloads/spotify-dark-theme.vsix", InstallSteps,
    Some("https://marketplace.visualstudio.com/items?itemName=vsskin.spotify-dark"),
    Some("https://github.com/vsskin/themes/tree/main/spotify-dark"))

  const SpotifyDarkMetadata := ThemeMetadata("1.0.0", "VSskin Team", ["spotify", "dark", "green", "music"],
    1250, 4.8, "2024-05-15", Compatibility, None, None, None)

  const SpotifyDark := Theme("spotify-dark", "Spotify Dark", "Spotify Dark Theme", SpotifyDarkDescription,
    Spotify, SpotifyDarkColors, Dark, [], SpotifyDarkPreview, SpotifyDarkInstallation, SpotifyDarkMetadata)

  const AppleLightColors: ThemeColors := map[
    EditorBackground := "#ffffff", EditorForeground := "#1c1c1e",
    ActivityBarBackground := "#f2f2f7", ActivityBarForeground := "#007aff",
    SideBarBackground := "#f2f2f7", SideBarForeground := "#1c1c1e",
    StatusBarBackground := "#007aff", StatusBarForeground := "#ffffff",
    TitleBarActiveBackground := "#ffffff", TitleBarActiveForeground := "#1c1c1e"]

  const AppleLightDescription := "A clean, minimalist light theme inspired by Apple's design language"


  const AppleLightPreview := ThemePreview(["/previews/apple-light-1.png", "/previews/apple-light-2.png"],
    [CodeSnippet("swift", "", "SwiftUI View")], "/previews/apple-light-mini.png")

  const AppleLightInstallation := ThemeInstallation("/downloads/apple-light-theme.vsix", InstallSteps,
    Some("https://marketplace.visualstudio.com/items?itemName=vsskin.apple-light"),
    Some("https://github.com/vsskin/themes/tree/main/apple-light"))

  const AppleLightMetadata := ThemeMetadata("1.2.0", "VSskin Team", ["apple", "light", "minimal", "clean"],
    980, 4.6, "2024-05-10", Compatibility, None, None, None)

  const AppleLight := Theme("apple-light", "Apple Light", "Apple Light Theme", AppleLightDescription,
    Apple, AppleLightColors, Light, [], AppleLightPreview, AppleLightInstallation, AppleLightMetadata)

  const GitHubDarkColors: ThemeColors := map[
    EditorBackground := "#0d1117", EditorForeground := "#e6edf3",
    ActivityBarBackground := "#010409", ActivityBarForeground := "#0969da",
    SideBarBackground := "#010409", SideBarForeground := "#7d8590",
    StatusBarBackground := "#0969da", StatusBarForeground := "#ffffff",
    TitleBarActiveBackground := "#0d1117", TitleBarActiveForeground := "#e6edf3"]

  const GitHubDarkDescription := "The familiar GitHub dark theme for your VS Code editor"


  const GitHubDarkPreview := ThemePreview(["/previews/github-dark-1.png", "/previews/github-dark-2.png"],
    [CodeSnippet("javascript", "", "GitHub API Integration")], "/previews/github-dark-mini.png")

  const GitHubDarkInstallation := ThemeInstallation("/downloads/github-dark-theme.vsix", InstallSteps,
    Some("https://marketplace.visualstudio.com/items?itemName=vsskin.github-dark"),
    Some("https://github.com/vsskin/themes/tree/main/github-dark"))

  const GitHubDarkMetadata := ThemeMetadata("2.1.0", "VSskin Team", ["github", "dark", "code", "familiar"],
    2100, 4.9, "2024-05-20", Compatibility, None, None, None)

  const GitHubDark := Theme("github-dark", "GitHub Dark", "GitHub Dark Theme", GitHubDarkDescription,
    GitHub, GitHubDarkColors, Dark, [], GitHubDarkPreview, GitHubDarkInstallation, GitHubDarkMetadata)

  /** `sampleThemes`. */
  const SampleThemes: seq<Theme> := [SpotifyDark, AppleLight, GitHubDark]

  /** The fixture's theme ids are distinct. */
  lemma SampleThemeIdsDistinct()
    ensures |SampleThemes| == 3
    ensures forall i, j | 0 <= i < j < |SampleThemes| :: SampleThemes[i].id != SampleThemes[j].id
  {
    var ids := [SampleThemes[0].id, SampleThemes[1].id, SampleThemes[2].id];
    assert ids == ["spotify-dark", "apple-light", "github-dark"];
  }

  /** Every fixture theme defines the ten core colours and carries one of the sample brands. */
  lemma SampleThemesComplete()
    ensures forall t | t in SampleThemes :: HasCoreTokens(t.colors) && t.brand in SampleBrands
  {
    SpotifyDarkComplete();
    AppleLightComplete();
    GitHubDarkComplete();
  }

  lemma SpotifyDarkComplete()
    ensures HasCoreTokens(SpotifyDark.colors) && SpotifyDark.brand == SampleBrands[0]
  {
  }

  lemma AppleLightComplete()
    ensures HasCoreTokens(AppleLight.colors) && AppleLight.brand == SampleBrands[1]
  {
  }

  lemma GitHubDarkComplete()
    ensures HasCoreTokens(GitHubDark.colors) && GitHubDark.brand == SampleBrands[2]
  {
  }

  /** The brand ids are distinct, so `getThemesByBrand` picks out one brand's themes. */
  lemma SampleBrandsDistinct()
    ensures |SampleBrands| == 5
    ensures forall i, j | 0 <= i < j < |SampleBrands| :: SampleBrands[i].id != SampleBrands[j].id
  {
    var ids := [SampleBrands[0].id, SampleBrands[1].id, SampleBrands[2].id, SampleBrands[3].id, SampleBrands[4].id];
    assert ids == ["spotify", "apple", "github", "discord", "slack"];
  }

  // ----------------------------------------------------------------- queries

  /** The test `getThemesByBrand` applies to each theme. */
  function OfBrand(brandId: string): Theme -> bool {
    (t: Theme) => t.brand.id == brandId
  }

  /** `getThemesByBrand`: the fixture themes of one brand, in fixture order. */
  function GetThemesByBrand(brandId: string): (r: seq<Theme>)
    ensures forall t :: t in r <==> t in SampleThemes && t.brand.id == brandId
    ensures IsSubsequence(r, SampleThemes)
  {
    FilterIsSubsequence(OfBrand(brandId), SampleThemes);
    Filter(OfBrand(brandId), SampleThemes)
  }

  /** The test `getThemesByType` applies to each theme. */
  function OfVariant(v: Variant): Theme -> bool {
    (t: Theme) => t.themeType == v
  }

  /** `getThemesByType`: the fixture themes of one variant, in fixture order. */
  function GetThemesByType(v: Variant): (r: seq<Theme>)
    ensures forall t :: t in r <==> t in SampleThemes && t.themeType == v
    ensures IsSubsequence(r, SampleThemes)
  {
    FilterIsSubsequence(OfVariant(v), SampleThemes);
    Filter(OfVariant(v), SampleThemes)
  }

  /** The dark and the light themes together are the catalogue, each theme in exactly one. */
  lemma TypesPartitionThemes()
    ensures multiset(GetThemesByType(Dark)) + multiset(GetThemesByType(Light)) == multiset(SampleThemes)
    ensures |GetThemesByType(Dark)| + |GetThemesByType(Light)| == |SampleThemes|
  {
    FilterPartition(OfVariant(Dark), OfVariant(Light), SampleThemes);
    assert |multiset(GetThemesByType(Dark)) + multiset(GetThemesByType(Light))| == |multiset(SampleThemes)|;
  }

  /** In the fixture two themes are dark and one is light. */
  lemma FixtureTypes()
    ensures GetThemesByType(Dark) == [SpotifyDark, GitHubDark]
    ensures GetThemesByType(Light) == [AppleLight]
  {
    FilterThree(OfVariant(Dark), SpotifyDark, AppleLight, GitHubDark);
    FilterThree(OfVariant(Light), SpotifyDark, AppleLight, GitHubDark);
  }

  /** GitHub has one theme in the fixture and Discord, a sample brand too, has none. */
  lemma FixtureBrands()
    ensures GetThemesByBrand("github") == [GitHubDark]
    ensures GetThemesByBrand("discord") == []
  {
    FilterThree(OfBrand("github"), SpotifyDark, AppleLight, GitHubDark);
    FilterThree(OfBrand("discord"), SpotifyDark, AppleLight, GitHubDark);
  }

  /**
   * The test applied by `searchThemes` to a theme, given the already lowered
   * query: it occurs in the lowered name, description, brand display name or
   * one of the metadata tags.
   */
  predicate MatchesQuery(t: Theme, lowerQuery: string) {
    || Includes(ToLower(t.name), lowerQuery)
    || Includes(ToLower(t.description), lowerQuery)
    || Includes(ToLower(t.brand.displayName), lowerQuery)
    || exists i | 0 <= i < |t.metadata.tags| :: Includes(ToLower(t.metadata.tags[i]), lowerQuery)
  }

  /** `searchThemes`: the fixture themes that match the lowered query, in fixture order. */
  function SearchThemes(query: string): (r: seq<Theme>)
    ensures forall t :: t in r <==> t in SampleThemes && MatchesQuery(t, ToLower(query))
    ensures IsSubsequence(r, SampleThemes)
  {
    var lowerQuery := ToLower(query);
    FilterIsSubsequence(t => MatchesQuery(t, lowerQuery), SampleThemes);
    Filter(t => MatchesQuery(t, lowerQuery), SampleThemes)
  }

  /** Two queries that differ only in letter case find the same themes. */
  lemma SearchIgnoresCase(a: string, b: string)
    requires |a| == |b|
    requires forall i | 0 <= i < |a| :: LowerChar(a[i]) == LowerChar(b[i])
    ensures SearchThemes(a) == SearchThemes(b)
  {
    assert ToLower(a) == ToLower(b);
  }

  /** The empty query finds every theme. */
  lemma SearchEmptyFindsAll()
    ensures SearchThemes("") == SampleThemes
  {
    forall t | t in SampleThemes
      ensures MatchesQuery(t, ToLower(""))
    {
      IncludesEmpty(ToLower(t.name));
    }
    FilterAll(t => MatchesQuery(t, ToLower("")), SampleThemes);
  }

  /** Searching for a theme's own name, in any case, finds it. */
  lemma SearchFindsByName(t: Theme)
    requires t in SampleThemes
    ensures t in SearchThemes(t.name)
  {
    IncludesSelf(ToLower(t.name));
  }

  /** Searching for one of a theme's tags finds it. */
  lemma SearchFindsByTag(t: Theme, k: nat)
    requires t in SampleThemes && k < |t.metadata.tags|
    ensures t in SearchThemes(t.metadata.tags[k])
  {
    IncludesSelf(ToLower(t.metadata.tags[k]));
  }

  /** Typing more of a query never finds more: `p + q` finds a subset of what `p` finds. */
  lemma SearchNarrows(p: string, q: string)
    ensures forall t | t in SearchThemes(p + q) :: t in SearchThemes(p)
  {
    ToLowerConcat(p, q);
    forall t | t in SearchThemes(p + q)
      ensures MatchesQuery(t, ToLower(p))
    {
      var lp, lq := ToLower(p), ToLower(q);
      if Includes(ToLower(t.name), lp + lq) {
        IncludesPrefix(ToLower(t.name), lp, lq);
      } else if Includes(ToLower(t.description), lp + lq) {
        IncludesPrefix(ToLower(t.description), lp, lq);
      } else if Includes(ToLower(t.brand.displayName), lp + lq) {
        IncludesPrefix(ToLower(t.brand.displayName), lp, lq);
      } else {
        var i :| 0 <= i < |t.metadata.tags| && Includes(ToLower(t.metadata.tags[i]), lp + lq);
        IncludesPrefix(ToLower(t.metadata.tags[i]), lp, lq);
      }
    }
  }
}

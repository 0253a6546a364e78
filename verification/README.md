# vsskin theme pipeline in Dafny

This project models the theme pipeline of vsskin, an app that turns a
company's brand colours into Visual Studio Code colour themes. The model
covers:

- **Colour arithmetic** (`ColorMath`, after `themeGenerator.ts`):
  - `hexToRgb` and `rgbToHex`;
  - `darken`, `lighten` and `adjustBrightness`;
  - the alpha-suffix `adjustOpacity`.
- **Theme derivation** (`ThemeGenerator`):
  - the per-token colour recipe;
  - the domain → category tag table;
  - the assembled `Theme` value and its four fixed variants.
- **The `.vsix` exporter** (`VsixExporter`):
  - the additive, clamped `adjustColor` and the contrast picker;
  - the manifest, the colour-theme document (about 150 derived tokens and 57 syntax rules), README and CHANGELOG;
  - the archive that `exportAsVSIX` fills file by file (an `Archive` class whose file map the method updates);
  - the download file name.
- **The simpler installer** (`ThemeInstaller`):
  - name and publisher sanitisation;
  - its manifest and nine-rule theme document;
  - its plain-text package;
  - the extension id, install command and instruction list.
- **Brand normalisation** (`BrandApi`): `transformToBrand`, the mock table and the supported-domain list.
- **The theme browser's state** (`ThemeContext`): the reducer, `filterThemes` and `sortThemes`.
- **User preferences** (`UserPreferences`): favourites, the ten most recent themes and the settings. The hook's state is a `Preferences` class whose methods reassign its fields.
- **The sample fixture** (`SampleData`) and its queries.

Supporting modules:

- `Wrappers` holds `Option`.
- `Builtins` models the JavaScript built-ins the code relies on: `Math.round`, `toString(16)`, `padStart`, `parseInt(…, 16)`, the 32-bit `>>` and `&` (through ECMAScript ToInt32), ASCII `toLowerCase`, `includes`, `join`, first-match `replace`, `slice` and `||` on strings.
- `Lists` models `Array.prototype.filter`.
- `Types` holds the entities of `types/index.ts`. Colour keys are the enumeration `Token`, and a theme's colours are a `map<Token, string>`.
- `Documents` holds the JSON documents as datatypes.

Numbers follow these rules:

- Float factors (0.9, 2.55·amount, an opacity) are exact `real`s.
- `Math.round` is `floor(x + 0.5)`.
- Channel values are unbounded integers, clamped explicitly where the source clamps.

Inputs the source obtains from its environment become parameters:

- The clock: the `now` / `today` strings.
- The rendered icon: `IconOutcome`.
- The hue rotation of `adjustHue`: `HueRotation`.
- The Brandfetch response: an `Option` parameter of `FetchBrandData`.
- JSON text that the installer embeds in its package: string parameters.

## Model

| member | source | states |
|---|---|---|
| ColorMath.HexToRgb | vsskin-app/src/lib/themeGenerator.ts:294-301 | every channel is in 0..255, and anything other than an optional `#` plus six hex digits parses as black |
| ColorMath.Digits | vsskin-app/src/lib/themeGenerator.ts:295 | the captured digits of a well-formed colour are six hex digits |
| ColorMath.RgbToHexReadsBack | vsskin-app/src/lib/themeGenerator.ts:294-305 | for channels in [0, 255], `rgbToHex` prints `#` and six lower-case digits that parse back as the rounded channels |
| ColorMath.ChannelsToHex | vsskin-app/src/lib/themeGenerator.ts:294-305 | whole channels round-trip exactly through `rgbToHex` and `hexToRgb` |
| ColorMath.Reprint | vsskin-app/src/lib/themeGenerator.ts:294-305 | `rgbToHex(hexToRgb(x))` is `#` plus x's digits lower-cased for a well-formed x, and `#000000` otherwise |
| ColorMath.DarkenDims | vsskin-app/src/lib/themeGenerator.ts:307-314 | for a factor in [0, 1], `darken` yields a canonical colour no channel of which is brighter than the input's |
| ColorMath.LightenRaises | vsskin-app/src/lib/themeGenerator.ts:316-323 | for a factor in [0, 1], `lighten` yields a canonical colour no channel of which is darker than the input's |
| ColorMath.DarkenFully | vsskin-app/src/lib/themeGenerator.ts:307-314 | `darken(h, 1)` is `#000000` for every h |
| ColorMath.DarkenByNothing | vsskin-app/src/lib/themeGenerator.ts:307-314 | `darken(h, 0)` is h parsed and re-printed, i.e. normalised |
| ColorMath.LightenFully | vsskin-app/src/lib/themeGenerator.ts:316-323 | `lighten(h, 1)` is `#ffffff` for every h |
| ColorMath.LightenByNothing | vsskin-app/src/lib/themeGenerator.ts:316-323 | `lighten(h, 0)` is h normalised |
| ColorMath.BrightnessBounds | vsskin-app/src/lib/themeGenerator.ts:325-332 | for any factor ≥ 0, the output is a canonical 7-character colour (the `min` caps channels at 255); a factor ≤ 1 never brightens and a factor ≥ 1 never darkens |
| ColorMath.AdjustOpacity | vsskin-app/src/lib/themeGenerator.ts:334-338 | the input string is kept verbatim as a prefix, even when malformed |
| ColorMath.OpacityDigits | vsskin-app/src/lib/themeGenerator.ts:334-338 | for an opacity in [0, 1], exactly two lower-case hex digits are appended, worth round(opacity · 255) |
| ColorMath.OpacityExamples | vsskin-app/src/lib/themeGenerator.ts:334-338 | opacity 0.5 appends `80` and opacity 1 appends `ff` |
| Types.VariantName | vsskin-app/src/types/index.ts:9 | the variant's name is `dark` exactly for dark themes and `light` exactly for light ones |
| Documents.UiTheme | vsskin-app/src/lib/vsixExporter.ts:37 | the manifest's `uiTheme` is `vs-dark` exactly for dark themes |
| ThemeGenerator.StyleName | vsskin-app/src/lib/themeGenerator.ts:9 | each style has its own name: minimal, vibrant or professional |
| ThemeGenerator.IntensityMultiplier | vsskin-app/src/lib/themeGenerator.ts:85-89 | every accent intensity gives a multiplier strictly between 0 and 1 |
| ThemeGenerator.BaseColors | vsskin-app/src/lib/themeGenerator.ts:81-82 | both base colours are canonical; a dark theme's background is no brighter than the primary and its foreground no darker than the accent; a light theme is the other way round |
| ThemeGenerator.RenderCanonical | vsskin-app/src/lib/themeGenerator.ts:76-246 | every token the recipe computes through darken, lighten or adjustBrightness is a canonical colour |
| ThemeGenerator.GeneratedCoreTokens | vsskin-app/src/lib/themeGenerator.ts:92-125 | the generated colours contain the ten core tokens |
| ThemeGenerator.RecomputedColors | vsskin-app/src/lib/themeGenerator.ts:92-246 | every computed token of the generated map holds a canonical colour |
| ThemeGenerator.SharedBackground | vsskin-app/src/lib/themeGenerator.ts:81-246 | the editor, tab, panel, terminal, notifications, minimap, peek-view editor and menu backgrounds all equal the base background: `darken(primary, 0.9)` if dark, else `lighten(accent, 0.95)` |
| ThemeGenerator.AnsiSwap | vsskin-app/src/lib/themeGenerator.ts:154-161 | ansiBlack and ansiWhite are `#000000`/`#FFFFFF` in a dark theme and swapped in a light one |
| ThemeGenerator.StyleIrrelevant | vsskin-app/src/lib/themeGenerator.ts:76-246 | two option sets that agree on variant and intensity give the same colours, whatever the style |
| ThemeGenerator.GenerateTagsFromBrand | vsskin-app/src/lib/themeGenerator.ts:270-292 | the tags pushed step by step equal the category tags of the brand's domain |
| ThemeGenerator.DomainListsDisjoint | vsskin-app/src/lib/themeGenerator.ts:274-288 | no domain is in two of the four category lists |
| ThemeGenerator.CategoryTagsOfDomain | vsskin-app/src/lib/themeGenerator.ts:270-292 | a listed domain gets exactly its list's two tags, and an unlisted domain gets none |
| ThemeGenerator.CapitalizeFirst | vsskin-app/src/lib/themeGenerator.ts:408-412 | same length, same tail, a first letter that is not lower case, and the same text once lower-cased |
| ThemeGenerator.ThemeIdInjective | vsskin-app/src/lib/themeGenerator.ts:47 | for one brand, the theme id determines variant and style |
| ThemeGenerator.GenerateThemeMetadata | vsskin-app/src/lib/themeGenerator.ts:252-268 | rating and downloads start at 0, metadata tags are empty, lastUpdated is the clock reading, and the description names variant and brand |
| ThemeGenerator.GenerateThemeFromBrand | vsskin-app/src/lib/themeGenerator.ts:39-70 | id is brand id, variant and style joined by `-`; type is the variant; name equals displayName; colours are the generated ones; tags are variant, style and lower-cased brand name followed by the category tags; rating and downloads are 0 |
| ThemeGenerator.GenerateThemeVariants | vsskin-app/src/lib/themeGenerator.ts:417-426 | exactly four themes, one per fixed option set, in order |
| ThemeGenerator.VariantIdsDistinct | vsskin-app/src/lib/themeGenerator.ts:418-423 | the four option sets give four distinct ids for any brand |
| ThemeGenerator.VariantsDistinct | vsskin-app/src/lib/themeGenerator.ts:417-426 | the four variants have distinct ids; the first and third are dark, the second and fourth light |
| VsixExporter.ClampByte | vsskin-app/src/lib/vsixExporter.ts:913-915 | the result is the channel clamped to 0..255 |
| VsixExporter.PackedNumeral | vsskin-app/src/lib/vsixExporter.ts:918 | `(0x1000000 + packed).toString(16)` is `1` followed by the three channels' two-digit codes |
| VsixExporter.ShiftChannelsReadsBack | vsskin-app/src/lib/vsixExporter.ts:913-918 | shifting every channel by amt prints a canonical colour whose channels are clamp(channel + amt, 0, 255) |
| VsixExporter.AdjustColorChannels | vsskin-app/src/lib/vsixExporter.ts:908-919 | on any string, `adjustColor` yields `#` plus six lower-case digits; each channel is the parsed channel plus round(2.55 · amount), clamped |
| VsixExporter.AdjustColorOfHex | vsskin-app/src/lib/vsixExporter.ts:908-919 | on a `#RRGGBB` input, the channels shifted are the input's own |
| VsixExporter.AdjustColorByNothing | vsskin-app/src/lib/vsixExporter.ts:908-919 | amount 0 returns the input with its digits lower-cased |
| VsixExporter.AdjustColorMonotone | vsskin-app/src/lib/vsixExporter.ts:908-919 | a larger amount never decreases any output channel |
| VsixExporter.PackedColorOfHex | vsskin-app/src/lib/vsixExporter.ts:909-912 | for a well-formed colour, the packed integer unpacks to the channels `hexToRgb` reads |
| VsixExporter.ContrastThreshold | vsskin-app/src/lib/vsixExporter.ts:926-932 | the result is black or white, and black exactly when all three pairs parse and 299r + 587g + 114b > 127500 |
| VsixExporter.ContrastOnWhite | vsskin-app/src/lib/vsixExporter.ts:926-932 | white gets black |
| VsixExporter.ContrastOnBlack | vsskin-app/src/lib/vsixExporter.ts:926-932 | black gets white |
| VsixExporter.PackageJsonDefaults | vsskin-app/src/lib/vsixExporter.ts:15-57 | name is `vsskin-` plus the id; a missing or empty version, publisher, license, display name or description falls back to `1.0.0`, `vsskin`, `MIT`, or the theme's own; repository is present exactly when given non-empty, as a git entry; homepage is passed through; one theme entry, `vs-dark` exactly when dark, path `./themes/<id>-color-theme.json`; the keywords end with the metadata tags |
| VsixExporter.BackgroundCopies | vsskin-app/src/lib/vsixExporter.ts:83-233 | the editor, tab, panel, terminal and breadcrumb backgrounds copy `editor.background` unchanged |
| VsixExporter.ForegroundCopies | vsskin-app/src/lib/vsixExporter.ts:84-134 | the editor, tab and terminal foregrounds copy `editor.foreground` unchanged |
| VsixExporter.AnsiSwap | vsskin-app/src/lib/vsixExporter.ts:135-142 | ansiBlack and ansiWhite are `#000000`/`#ffffff` for a dark theme and swapped for a light one |
| VsixExporter.OffsetFlips | vsskin-app/src/lib/vsixExporter.ts:98-160 | every shaded token adjusts its source by +amount in a dark theme and by −amount in a light one |
| VsixExporter.RulesFixed | vsskin-app/src/lib/vsixExporter.ts:264-775 | every theme gets the same 57 syntax rules, with the same names, scopes and font styles, in the same order |
| VsixExporter.CommentRule | vsskin-app/src/lib/vsixExporter.ts:264-775 | the first rule is the italic comment rule |
| VsixExporter.GenerateThemeJson | vsskin-app/src/lib/vsixExporter.ts:59-777 | the document exists exactly when the colours the shading reads are all defined, and then holds the exported colours and the syntax rules |
| VsixExporter.Backticked | vsskin-app/src/lib/vsixExporter.ts:823 | each tag is wrapped in backticks, one for one |
| VsixExporter.ReadmeNamesTheme | vsskin-app/src/lib/vsixExporter.ts:779-837 | the README contains the display name |
| VsixExporter.ReadmeShowsPrimary | vsskin-app/src/lib/vsixExporter.ts:779-837 | the README contains the brand's primary colour |
| VsixExporter.ReadmeShowsSecondary | vsskin-app/src/lib/vsixExporter.ts:779-837 | the README contains the brand's secondary colour |
| VsixExporter.ReadmeShowsTag | vsskin-app/src/lib/vsixExporter.ts:823 | the README contains every metadata tag in backticks |
| VsixExporter.ReadmeLinksRepository | vsskin-app/src/lib/vsixExporter.ts:827 | the README links the repository option, or `https://github.com/vsskin/themes` when it is missing or empty |
| VsixExporter.ReadmeStatesLicense | vsskin-app/src/lib/vsixExporter.ts:831 | the README states the license option, or `MIT` |
| VsixExporter.ChangelogHeading | vsskin-app/src/lib/vsixExporter.ts:839-875 | the CHANGELOG heads its release with the manifest's version and the export date, and names the theme |
| VsixExporter.Archive.constructor | vsskin-app/src/lib/vsixExporter.ts:935 | a new archive is empty |
| VsixExporter.Archive.AddFile | vsskin-app/src/lib/vsixExporter.ts:938-960 | `zip.file` sets one entry and leaves the others |
| VsixExporter.ExportAsVsix | vsskin-app/src/lib/vsixExporter.ts:934-965 | the export completes exactly when the theme document can be built, and then the archive holds exactly the exported files; otherwise only the manifest was written |
| VsixExporter.AddThemeFiles | vsskin-app/src/lib/vsixExporter.ts:940-961 | after the manifest, the archive gains the theme file, README and CHANGELOG, and icon.png only for a non-empty icon data URL, which is exactly the archive layout |
| VsixExporter.ArchiveLayout | vsskin-app/src/lib/vsixExporter.ts:938-960 | the archive always holds package.json, themes/<id>-color-theme.json, README.md and CHANGELOG.md with their documents; icon.png is there exactly when the icon rendered to a non-empty data URL; 4 or 5 files |
| VsixExporter.ManifestPathInArchive | vsskin-app/src/lib/vsixExporter.ts:38-44 | the manifest's theme path, without `./`, is a file of the archive |
| VsixExporter.DownloadNameMatchesManifest | vsskin-app/src/lib/vsixExporter.ts:967-975 | the download is named `<manifest name>-<manifest version>.vsix`, i.e. `vsskin-<id>-<version or 1.0.0>.vsix` |
| ThemeInstaller.DashOutside | vsskin-app/src/lib/themeInstaller.ts:43 | same length; allowed characters kept, every other character becomes `-` |
| ThemeInstaller.SanitizeName | vsskin-app/src/lib/themeInstaller.ts:43 | same length, only `[a-z0-9-]`; each lower-cased character is kept if allowed and becomes `-` otherwise |
| ThemeInstaller.SanitizeNameIdempotent | vsskin-app/src/lib/themeInstaller.ts:43 | sanitising twice is sanitising once |
| ThemeInstaller.SanitizePublisher | vsskin-app/src/lib/themeInstaller.ts:44 | never longer, only `[a-z0-9]`, and holds exactly the allowed characters of the lower-cased name |
| ThemeInstaller.PublisherKeepsOrder | vsskin-app/src/lib/themeInstaller.ts:44 | the result is a subsequence of the lower-cased name |
| ThemeInstaller.SanitizePublisherIdempotent | vsskin-app/src/lib/themeInstaller.ts:44 | sanitising twice is sanitising once |
| ThemeInstaller.GenerateExtensionPackage | vsskin-app/src/lib/themeInstaller.ts:42-77 | name is sanitised name + `-theme`; displayName is name + ` Theme`; publisher is `vsskin-` + sanitised publisher; version `1.0.0`; an empty description falls back to the brand template; one theme entry, `vs-dark` exactly when dark, at `./themes/<sanitised>-color-theme.json`; four fixed keywords, then the theme's tags |
| ThemeInstaller.PackageNameIsSafe | vsskin-app/src/lib/themeInstaller.ts:43-46 | the package name uses only `[a-z0-9-]` |
| ThemeInstaller.Color | vsskin-app/src/lib/themeInstaller.ts:82-153 | a colour lookup is present exactly when the theme defines the token |
| ThemeInstaller.AccentColor | vsskin-app/src/lib/themeInstaller.ts:113 | `textLink.foreground` when defined and non-empty, else the brand's primary colour |
| ThemeInstaller.StringColor | vsskin-app/src/lib/themeInstaller.ts:134 | `gitDecoration.addedResourceForeground` when defined and non-empty, else `#4CAF50` |
| ThemeInstaller.InstallerThemeJson | vsskin-app/src/lib/themeInstaller.ts:82-153 | name, type and colours pass through; nine rules; rule 0 uses the editor foreground and background; the italic comment rule is the editor foreground + `80`; the variable and operator rules use the editor foreground; keyword, number, function and class use the accent fallback and strings the green fallback |
| ThemeInstaller.InstallerRulesFixed | vsskin-app/src/lib/themeInstaller.ts:87-152 | every theme gets the same nine rule names and scope lists, italics only on comments, and a background only on the first rule |
| ThemeInstaller.CommentAtHalfOpacity | vsskin-app/src/lib/themeInstaller.ts:99 | the comment colour is the editor foreground at opacity 0.5 in the generator's notation |
| ThemeInstaller.ReadmeTitledByManifest | vsskin-app/src/lib/themeInstaller.ts:184-224 | the README's title is the manifest's display name |
| ThemeInstaller.ChangelogHeadedByVersion | vsskin-app/src/lib/themeInstaller.ts:226-249 | the CHANGELOG heads its release with the manifest's version and the date |
| ThemeInstaller.PackageFiles | vsskin-app/src/lib/themeInstaller.ts:165-172 | four files in order: package.json, the theme file, README.md, CHANGELOG.md, carrying the given JSON texts |
| ThemeInstaller.PackageTextOfFour | vsskin-app/src/lib/themeInstaller.ts:174-176 | four files serialise as `=== name ===\n` + content + `\n` each, joined by blank lines |
| ThemeInstaller.CreateThemePackageLayout | vsskin-app/src/lib/themeInstaller.ts:158-179 | the package text is exactly the four sections in order |
| ThemeInstaller.ManifestPathIsPackageFile | vsskin-app/src/lib/themeInstaller.ts:158-167 | the manifest's theme path names the theme file the package writes |
| ThemeInstaller.ExtensionIdOfManifest | vsskin-app/src/lib/themeInstaller.ts:282 | the extension id is the manifest's publisher and name joined by `.` |
| ThemeInstaller.InstallCommand | vsskin-app/src/lib/themeInstaller.ts:296-302 | the command installs the extension the generated manifest describes: `code --install-extension ` plus the manifest's publisher, `.` and name |
| ThemeInstaller.InstallTheme | vsskin-app/src/lib/themeInstaller.ts:254-291 | success exactly when the download was produced, and then the result carries the download and the extension id; on failure neither |
| ThemeInstaller.InstallReportsCommandId | vsskin-app/src/lib/themeInstaller.ts:282-302 | the id `installTheme` reports is the one the install command installs |
| ThemeInstaller.DownloadNameIsSafe | vsskin-app/src/lib/themeInstaller.ts:264 | the download name is the sanitised name + `-theme-v1.0.0.txt` |
| ThemeInstaller.InstallationInstructions | vsskin-app/src/lib/themeInstaller.ts:315-327 | nine steps; the eighth selects the theme by name |
| ThemeInstaller.InstructionsDifferOnlyInName | vsskin-app/src/lib/themeInstaller.ts:315-327 | two themes get the same steps except the eighth |
| BrandApi.AllSupportedBrands | vsskin-app/src/lib/brandApi.ts:212-214 | the domains of the supported-brand table, in order |
| BrandApi.SupportedBrandsShape | vsskin-app/src/lib/brandApi.ts:56-76 | 19 distinct domains, each aliased to itself, each with a non-empty name |
| BrandApi.SupportedName | vsskin-app/src/lib/brandApi.ts:56-76 | a name is found exactly for a supported domain, and it is that domain's table name |
| BrandApi.NameIn | vsskin-app/src/lib/brandApi.ts:159 | lookup in a table: found exactly when some row has the domain, and then that row's name |
| BrandApi.GetMockBrandData | vsskin-app/src/lib/brandApi.ts:114-167 | the requested domain is returned; only spotify.com, apple.com and github.com are claimed; an unsupported domain is named `Unknown` |
| BrandApi.MockNameFromTable | vsskin-app/src/lib/brandApi.ts:114-167 | a supported domain's mock is named from the supported table |
| BrandApi.MockedNames | vsskin-app/src/lib/brandApi.ts:114-167 | the three mock entries agree with the supported table's names |
| BrandApi.FetchBrandData | vsskin-app/src/lib/brandApi.ts:87-112 | without an API key or without a response the mock is used; otherwise the response is returned |
| BrandApi.FirstOfKind | vsskin-app/src/lib/brandApi.ts:170-176 | `find`: the first colour of the kind, or none when there is none |
| BrandApi.PickHex | vsskin-app/src/lib/brandApi.ts:170-176 | the first colour of the kind, else the colour at the position, else the fallback |
| BrandApi.LightHex | vsskin-app/src/lib/brandApi.ts:194-200 | the hex of the first light colour when it is non-empty; `#FFFFFF` when that hex is empty or no colour is light |
| BrandApi.FontName | vsskin-app/src/lib/brandApi.ts:178-179 | the font at the position, else the fallback |
| BrandApi.LogoUrl | vsskin-app/src/lib/brandApi.ts:204 | the first format's source of the first logo; the empty string when there is no logo list, the list is empty, or the first logo has no formats |
| BrandApi.TransformToBrand | vsskin-app/src/lib/brandApi.ts:169-210 | primary is the first accent, else the first colour, else `#000000`; secondary is the first dark, else the second colour, else `#666666`; primary/colors/guidelines agree; accent is the first light colour's hex when non-empty, else `#FFFFFF`; id replaces only the first `.`; website and brandUrl are `https://` + domain; fonts default to Inter and Arial, logo to `` |
| BrandApi.TransformDefaults | vsskin-app/src/lib/brandApi.ts:169-210 | without colours, fonts and logos, every default applies |
| BrandApi.BrandIdOfDomain | vsskin-app/src/lib/brandApi.ts:182 | the id is the domain with its first `.` replaced by `-` |
| BrandApi.GitHubMockBrand | vsskin-app/src/lib/brandApi.ts:145-165 | the GitHub mock normalises to its accent, dark and light colours |
| ThemeContext.ThemeReducer | vsskin-app/src/contexts/ThemeContext.tsx:42-63 | each SET action changes only its own field; REFRESH_THEMES puts back the sample themes and brands; an unknown action returns the state unchanged |
| ThemeContext.RefreshRestoresCatalogue | vsskin-app/src/contexts/ThemeContext.tsx:175-187 | the refresh sequence restores the sample catalogue, clears loading and error, and keeps everything else |
| ThemeContext.FilterThemes | vsskin-app/src/contexts/ThemeContext.tsx:66-101 | an order-preserving subsequence that keeps every copy of a theme that passes and no copy of one that fails; each kept theme has an allowed brand, type and a shared tag when those lists are non-empty, and contains the lower-cased query when it is non-empty |
| ThemeContext.EmptyFiltersKeepAll | vsskin-app/src/contexts/ThemeContext.tsx:66-101 | with the initial, empty filters nothing is removed |
| ThemeContext.SearchSpansFields | vsskin-app/src/contexts/ThemeContext.tsx:84-96 | the search text joins the fields with spaces, so a query spanning name and display name still matches |
| ThemeContext.KeyOf | vsskin-app/src/contexts/ThemeContext.tsx:108-124 | name and date keys compare as text, rating and downloads as numbers |
| ThemeContext.Compare | vsskin-app/src/contexts/ThemeContext.tsx:104-132 | the comparator answers −1, 0 or 1 |
| ThemeContext.CompareMeansPrecedes | vsskin-app/src/contexts/ThemeContext.tsx:126-128 | a negative answer means the first theme precedes in the chosen direction; a positive one that the second does |
| ThemeContext.PrecedesAsymmetric | vsskin-app/src/contexts/ThemeContext.tsx:126-128 | no two themes precede each other |
| ThemeContext.NotPrecedesTransitive | vsskin-app/src/contexts/ThemeContext.tsx:126-128 | "does not precede" is transitive, so the order is a valid sort order |
| ThemeContext.Insert | vsskin-app/src/contexts/ThemeContext.tsx:104 | insertion adds exactly one theme and loses none |
| ThemeContext.InsertSorted | vsskin-app/src/contexts/ThemeContext.tsx:104-132 | inserting into a sorted list keeps it sorted |
| ThemeContext.SortThemes | vsskin-app/src/contexts/ThemeContext.tsx:103-135 | a permutation of the input, sorted ascending or descending by the chosen key |
| ThemeContext.VisibleThemes | vsskin-app/src/contexts/ThemeContext.tsx:148-152 | a stored theme is shown exactly when it passes the filters, each as often as the filter keeps it, in sort order |
| ThemeContext.UnfilteredByDownloads | vsskin-app/src/contexts/ThemeContext.tsx:148-152 | with the initial filters and sort, every theme is shown, most downloaded first |
| ThemeContext.InitialViewIsCatalogue | vsskin-app/src/contexts/ThemeContext.tsx:20-28 | on start the whole sample catalogue is shown, most downloaded first |
| UserPreferences.WithFavorite | vsskin-app/src/hooks/useUserPreferences.ts:58-64 | the id is then present; unchanged when it was there; otherwise appended at the end |
| UserPreferences.WithFavoriteNoDuplicates | vsskin-app/src/hooks/useUserPreferences.ts:59-61 | favourites without duplicates stay without duplicates |
| Lists.FilterCounts | vsskin-app/src/hooks/useUserPreferences.ts:67 | `filter` keeps every copy of an element that passes the predicate and no copy of one that fails |
| UserPreferences.Without | vsskin-app/src/hooks/useUserPreferences.ts:67 | every copy of the id is gone, every copy of every other id stays, in order |
| UserPreferences.WithoutAbsent | vsskin-app/src/hooks/useUserPreferences.ts:67 | removing an absent id changes nothing |
| UserPreferences.WithoutNoDuplicates | vsskin-app/src/hooks/useUserPreferences.ts:66-69 | removal keeps a list free of duplicates |
| UserPreferences.MoveToFront | vsskin-app/src/hooks/useUserPreferences.ts:75-85 | the id first and only once, at most ten entries, the rest being the old list without the id, in order, cut to fit |
| UserPreferences.MoveToFrontIdempotent | vsskin-app/src/hooks/useUserPreferences.ts:75-85 | viewing the most recent theme again changes nothing |
| UserPreferences.MoveToFrontNoDuplicates | vsskin-app/src/hooks/useUserPreferences.ts:75-85 | the recent list stays free of duplicates |
| UserPreferences.MergeSettings | vsskin-app/src/hooks/useUserPreferences.ts:87-90 | each supplied setting replaces its own, the others stay |
| UserPreferences.MergeSettingsTwice | vsskin-app/src/hooks/useUserPreferences.ts:87-90 | two settings updates in a row equal one with the later values winning |
| UserPreferences.Preferences.constructor | vsskin-app/src/hooks/useUserPreferences.ts:14-25 | the hook starts from the default preferences |
| UserPreferences.Preferences.SavePreferences | vsskin-app/src/hooks/useUserPreferences.ts:48-56 | the supplied fields replace the stored ones, the rest stay |
| UserPreferences.Preferences.AddFavorite | vsskin-app/src/hooks/useUserPreferences.ts:58-64 | favourites become WithFavorite of the old ones, `isFavorite` then holds, nothing else changes |
| UserPreferences.Preferences.RemoveFavorite | vsskin-app/src/hooks/useUserPreferences.ts:66-73 | favourites become the old ones without the id, `isFavorite` then fails, nothing else changes |
| UserPreferences.Preferences.AddRecentTheme | vsskin-app/src/hooks/useUserPreferences.ts:75-85 | the recent list becomes MoveToFront of the old one, nothing else changes |
| UserPreferences.Preferences.UpdateSettings | vsskin-app/src/hooks/useUserPreferences.ts:87-90 | the settings become the merge of old settings and patch, nothing else changes |
| UserPreferences.Preferences.ClearAllData | vsskin-app/src/hooks/useUserPreferences.ts:92-99 | everything is back to the default preferences |
| SampleData.SampleThemeIdsDistinct | vsskin-app/src/data/sampleData.ts:116-314 | three sample themes with distinct ids |
| SampleData.SampleThemesComplete | vsskin-app/src/data/sampleData.ts:116-314 | every sample theme has the ten core colour tokens and a brand from the sample brands |
| SampleData.SampleBrandsDistinct | vsskin-app/src/data/sampleData.ts:3-114 | five sample brands with distinct ids |
| SampleData.GetThemesByBrand | vsskin-app/src/data/sampleData.ts:316-318 | an order-preserving subsequence of the samples holding exactly the brand's themes |
| SampleData.GetThemesByType | vsskin-app/src/data/sampleData.ts:320-322 | an order-preserving subsequence of the samples holding exactly the themes of the type |
| SampleData.TypesPartitionThemes | vsskin-app/src/data/sampleData.ts:116-322 | the dark and the light themes together are the samples, each once |
| SampleData.FixtureTypes | vsskin-app/src/data/sampleData.ts:116-322 | the dark themes are Spotify Dark and GitHub Dark, the light one Apple Light |
| SampleData.FixtureBrands | vsskin-app/src/data/sampleData.ts:116-318 | github has one theme and discord none |
| SampleData.SearchThemes | vsskin-app/src/data/sampleData.ts:324-332 | an order-preserving subsequence holding exactly the samples whose name, description, brand name or a tag contains the lower-cased query |
| SampleData.SearchIgnoresCase | vsskin-app/src/data/sampleData.ts:325 | queries that differ only in case find the same themes |
| SampleData.SearchEmptyFindsAll | vsskin-app/src/data/sampleData.ts:324-332 | the empty query finds every sample |
| SampleData.SearchFindsByName | vsskin-app/src/data/sampleData.ts:327 | a theme is found by its own name |
| SampleData.SearchFindsByTag | vsskin-app/src/data/sampleData.ts:330 | a theme is found by any of its tags |
| SampleData.SearchNarrows | vsskin-app/src/data/sampleData.ts:324-332 | extending a query never finds more |
| Pipeline.GeneratedThemesExport | vsskin-app/src/lib/vsixExporter.ts:65-262 | every colour the exporter shades is defined on a generated theme, so its theme document is always built and `exportAsVSIX` completes |
| Pipeline.GeneratedVariantsExport | vsskin-app/src/lib/themeGenerator.ts:417-426 | each of the four generated variants can be exported |

## Left out

- HSL arithmetic (`adjustHue`, `rgbToHsl`, `hslToRgb`) is floating-point numerics. The hue rotation is a function parameter `HueRotation` of the colour recipe.
- Floating point: factors and opacities are exact reals, so no claim is made about the bits a JavaScript double produces for 0.9, 0.95 or 2.55 · amount.
- Clock reads (`new Date()`) are the `now` and `today` string parameters.
- `generateIcon` draws on a canvas. Its outcome (a data URL or an exception) is the `IconOutcome` parameter.
- VsixExporter.ExportAsVsix: `zip.folder('themes')` also adds a `themes/` directory entry to the archive, on both the completed and the aborted path. The model's archive holds files only, so "only package.json" and "four or five files" count files, not archive entries.
- JSZip compression, Blobs, object URLs and anchor downloads (`downloadVSIX`, the `installTheme` DOM steps) are I/O. The archive is a map from file name to content, and `installTheme` takes whether the download happened as a parameter.
- `JSON.stringify` byte formatting is not modelled. Documents are datatypes, and `undefined` fields are `Option`s. The installer's package text takes the JSON texts as parameters.
- The network: the Brandfetch HTTP call of `fetchBrandData` is its `response` parameter. `fetchAllBrands` and `fetchBrandByDomain` (the Promise fan-out) are not modelled.
- `copyInstallCommand` (the clipboard), `isVSCodeAvailable` and `installThemeDirectly` (a `postMessage` to the editor) are environment calls. Only the command text they build is modelled, as `InstallCommand`.
- localStorage is not modelled: loading, persisting, storage errors, `exportData`/`importData`. `ClearAllData` assumes the removal succeeds.
- Keys inherited through the JavaScript prototype (`SUPPORTED_BRANDS['constructor']` and the like) are not modelled. Table lookups see only the listed keys.
- `generateThemePreview` is not modelled. The theme's `preview` and `installation` fields are carried (the generator and the fixture build them), but no contract states their contents: they are presentation strings.
- The sample fixture's code snippets are empty strings, and the sample brands' `domain`, `primary` and `colors` fields are empty (their `primaryColor` and `secondaryColor` are set). The fixture's properties and queries do not read them.
- ThemeContext.KeyOf: `lastUpdated` is compared as ISO date text, not as `new Date(…)` milliseconds. The two agree for dates of the same ISO shape (both `YYYY-MM-DD`, or both full `toISOString()` timestamps), but not across shapes: `2024-05-20` sorts before `2024-05-20T00:00:00.000Z` although both are the same instant; invalid dates (NaN) are not modelled.
- ThemeContext.SortThemes: the result is an insertion sort, so it is stable, but stability is not stated as a contract.
- The `catch` branch of `refreshThemes` cannot be reached without the simulated delay failing. Only the successful dispatch sequence is modelled.
- Strings are sequences of Unicode code points, while JavaScript strings and regular expressions without the `u` flag work on UTF-16 code units. For characters outside the Basic Multilingual Plane the model differs: `replace(/[^a-z0-9-]/g, '-')` turns one such character into `--` in JavaScript but into one `-` here (SanitizeName, DashOutside, DownloadFileName), and the name sort's `<` orders U+E000–U+FFFF against such characters the other way round from JavaScript (StrLess).
- Theme colour keys: `ThemeColors` is indexed by any string in the source (`[key: string]: string` in `types/index.ts`), and the installer passes the colour object through whole. The model's colour maps are keyed by the closed enumeration `Token`, so keys outside it cannot be represented.
- VsixExporter.PackedColor: `parseInt(…, 16)` returns a double, which is rounded once the value passes 2^53, before ToInt32 reduces it. The model parses exactly, so `adjustColor` can differ from JavaScript on malformed inputs of 14 or more hex digits.
- The sample fixture's themes carry no top-level `tags` field (only `metadata.tags`); the model gives them `tags == []`. In the source `...theme.tags` in `generateExtensionPackage` throws on these themes, so `installTheme` on a catalogue theme ends in its `catch` with `success: false`, while in the model packaging them succeeds.
- `toLowerCase` and `toUpperCase` are ASCII-only.
- React rendering, the context provider's callbacks other than the reducer and the memo, and every component and page are presentation.

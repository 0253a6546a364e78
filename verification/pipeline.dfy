/**
 * The generator feeding the exporter: a theme made by
 * `generateThemeFromBrand` (vsskin-app/src/lib/themeGenerator.ts) can always
 * be written out by `exportAsVSIX` (vsskin-app/src/lib/vsixExporter.ts).
 */
module Pipeline {
  import opened Types
  import ThemeGenerator
  import VsixExporter

  /**
   * Every colour the exporter shades is one the generator always defines, so
   * the theme document exists and the archive is completed.
   */
  lemma GeneratedThemesExport(brand: Brand, o: ThemeGenerator.GenerationOptions, now: string, hue: ThemeGenerator.HueRotation)
    ensures var theme := ThemeGenerator.GenerateThemeFromBrand(brand, o, now, hue);
      && VsixExporter.ShadeSourcesDefined(theme.colors)
      && VsixExporter.GenerateThemeJson(theme).Some?
  {
    ThemeGenerator.GeneratedCoreTokens(brand, o, hue);
  }

  /** The same holds for each of the four themes `generateThemeVariants` makes. */
  lemma GeneratedVariantsExport(brand: Brand, now: string, hue: ThemeGenerator.HueRotation)
    ensures forall t | t in ThemeGenerator.GenerateThemeVariants(brand, now, hue) :: VsixExporter.GenerateThemeJson(t).Some?
  {
    var themes := ThemeGenerator.GenerateThemeVariants(brand, now, hue);
    forall t | t in themes
      ensures VsixExporter.GenerateThemeJson(t).Some?
    {
      var k :| 0 <= k < |themes| && themes[k] == t;
      GeneratedThemesExport(brand, ThemeGenerator.VariantOptions[k], now, hue);
    }
  }
}

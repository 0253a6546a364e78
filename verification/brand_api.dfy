/**
 * Brand normalisation (vsskin-app/src/lib/brandApi.ts): the Brandfetch
 * response, the offline table of mock responses, the supported-domain table,
 * and `transformToBrand`, which turns a response into a Brand by picking
 * colours by type with ordered fallbacks.
 */
module BrandApi {
  import opened Wrappers
  import opened Builtins
  import opened Types

  // ------------------------------------------------------------ the response

  /** A colour of a Brandfetch response; `kind` is its `type` ('accent', 'dark', 'light', ...). */
  datatype FetchedColor = FetchedColor(hex: string, kind: string, brightness: int)

  datatype FetchedFont = FetchedFont(name: string, kind: string, origin: string, originId: string, weights: seq<int>)

  datatype LogoFormat = LogoFormat(src: string, background: string, format: string, height: int, width: int, size: int)

  datatype FetchedLogo = FetchedLogo(kind: string, theme: string, formats: seq<LogoFormat>)

  /** A Brandfetch response; absent optional members are None. */
  datatype BrandfetchResponse = BrandfetchResponse(
    name: string,
    domain: string,
    claimed: bool,
    description: Option<string>,
    logo: Option<seq<FetchedLogo>>,
    colors: Option<seq<FetchedColor>>,
    fonts: Option<seq<FetchedFont>>)

  // ------------------------------------------------------------ supported brands

  /** An entry of `SUPPORTED_BRANDS`: the key, the display name and the alias. */
  datatype SupportedBrand = SupportedBrand(domain: string, name: string, alias: string)

  /** `SUPPORTED_BRANDS`, in the order of its keys. */
  const SupportedBrands: seq<SupportedBrand> := [
    SupportedBrand("spotify.com", "Spotify", "spotify.com"),
    SupportedBrand("apple.com", "Apple", "apple.com"),
    SupportedBrand("github.com", "GitHub", "github.com"),
    SupportedBrand("slack.com", "Slack", "slack.com"),
    SupportedBrand("discord.com", "Discord", "discord.com"),
    SupportedBrand("stripe.com", "Stripe", "stripe.com"),
    SupportedBrand("figma.com", "Figma", "figma.com"),
    SupportedBrand("notion.so", "Notion", "notion.so"),
    SupportedBrand("airtable.com", "Airtable", "airtable.com"),
    SupportedBrand("cash.app", "Cash App", "cash.app"),
    SupportedBrand("meta.com", "Meta", "meta.com"),
    SupportedBrand("zoom.com", "Zoom", "zoom.com"),
    SupportedBrand("reddit.com", "Reddit", "reddit.com"),
    SupportedBrand("paypal.com", "PayPal", "paypal.com"),
    SupportedBrand("youtube.com", "YouTube", "youtube.com"),
    SupportedBrand("coinbase.com", "Coinbase", "coinbase.com"),
    SupportedBrand("linear.app", "Linear", "linear.app"),
    SupportedBrand("tiktok.com", "TikTok", "tiktok.com"),
    SupportedBrand("netflix.com", "Netflix", "netflix.com") ]

  /** `getAllSupportedBrands`: the keys of the table, in order. */
  function AllSupportedBrands(): (domains: seq<string>)
    ensures |domains| == |SupportedBrands|
    ensures forall i | 0 <= i < |domains| :: domains[i] == SupportedBrands[i].domain
  {
    seq(|SupportedBrands|, i requires 0 <= i < |SupportedBrands| => SupportedBrands[i].domain)
  }

  /** There are nineteen supported domains, no two alike, each its own alias and with a name. */
  lemma SupportedBrandsShape()
    ensures |AllSupportedBrands()| == 19
    ensures forall i, j | 0 <= i < j < 19 :: AllSupportedBrands()[i] != AllSupportedBrands()[j]
    ensures forall i | 0 <= i < 19 :: SupportedBrands[i].alias == SupportedBrands[i].domain
    ensures forall i | 0 <= i < 19 :: SupportedBrands[i].name != ""
  {
    SupportedDomainsDistinct(AllSupportedBrands());
  }

  const SupportedDomains: seq<string> := ["spotify.com", "apple.com", "github.com", "slack.com", "discord.com",
    "stripe.com", "figma.com", "notion.so", "airtable.com", "cash.app", "meta.com", "zoom.com", "reddit.com",
    "paypal.com", "youtube.com", "coinbase.com", "linear.app", "tiktok.com", "netflix.com"]

  lemma SupportedDomainsDistinct(d: seq<string>)
    requires d == SupportedDomains
    ensures forall i, j | 0 <= i < j < |d| :: d[i] != d[j]
  {
  }

  /** `SUPPORTED_BRANDS[domain]?.name`: the name of the entry with that key, if any. */
  function SupportedName(domain: string): (name: Option<string>)
    ensures name.Some? <==> domain in AllSupportedBrands()
    ensures name.Some? ==> exists i | 0 <= i < |SupportedBrands| ::
      SupportedBrands[i].domain == domain && SupportedBrands[i].name == name.value
  {
    NameIn(SupportedBrands, domain)
  }

  function NameIn(table: seq<SupportedBrand>, domain: string): (name: Option<string>)
    ensures name.Some? <==> exists i | 0 <= i < |table| :: table[i].domain == domain
    ensures name.Some? ==> exists i | 0 <= i < |table| :: table[i].domain == domain && table[i].name == name.value
  {
    if table == [] then None
    else if table[0].domain == domain then Some(table[0].name)
    else
      var rest := NameIn(table[1..], domain);
      assert forall i | 1 <= i < |table| :: table[i] == table[1..][i - 1];
      rest
  }

  // ------------------------------------------------------------ mock data

  const SpotifyDescription := "Spotify is a Swedish audio streaming and media services provider."
  const AppleDescription := "Apple Inc. is an American multinational technology company."
  const GitHubDescription := "GitHub is a provider of Internet hosting for software development and version control."

  const SpotifyColors := [FetchedColor("#1ED760", "accent", 128), FetchedColor("#191414", "dark", 20), FetchedColor("#FFFFFF", "light", 255)]
  const AppleColors := [FetchedColor("#007AFF", "accent", 128), FetchedColor("#000000", "dark", 0), FetchedColor("#F2F2F7", "light", 242)]
  const GitHubColors := [FetchedColor("#24292E", "dark", 36), FetchedColor("#FFFFFF", "light", 255), FetchedColor("#0366D6", "accent", 128)]

  /** The partial responses of the offline table, for its three domains. */
  function MockEntry(domain: string): Option<BrandfetchResponse> {
    if domain == "spotify.com" then
      Some(BrandfetchResponse("Spotify", "spotify.com", true, Some(SpotifyDescription), None,
        Some(SpotifyColors),
        Some([FetchedFont("Circular", "primary", "custom", "circular", [400, 500, 700])])))
    else if domain == "apple.com" then
      Some(BrandfetchResponse("Apple", "apple.com", true, Some(AppleDescription), None,
        Some(AppleColors),
        Some([FetchedFont("SF Pro", "primary", "system", "sf-pro", [400, 500, 600, 700])])))
    else if domain == "github.com" then
      Some(BrandfetchResponse("GitHub", "github.com", true, Some(GitHubDescription), None,
        Some(GitHubColors),
        Some([FetchedFont("Inter", "primary", "google", "inter", [400, 500, 600])])))
    else None
  }

  /**
   * `getMockBrandData`: the requested domain, the table name or 'Unknown',
   * unclaimed, with the offline entry's members spread over it for the three
   * domains that have one.
   */
  function GetMockBrandData(domain: string): (r: BrandfetchResponse)
    ensures r.domain == domain
    ensures r.claimed <==> domain == "spotify.com" || domain == "apple.com" || domain == "github.com"
    ensures domain !in AllSupportedBrands() ==> r.name == "Unknown"
  {
    assert AllSupportedBrands()[0] == "spotify.com" && AllSupportedBrands()[1] == "apple.com"
      && AllSupportedBrands()[2] == "github.com";
    match MockEntry(domain)
    case Some(entry) => entry
    case None => BrandfetchResponse(OrElse(SupportedName(domain), "Unknown"), domain, false, None, None, None, None)
  }

  /** A supported domain's mock response carries the table's name for it. */
  lemma MockNameFromTable(domain: string)
    requires domain in AllSupportedBrands()
    ensures SupportedName(domain).Some? && GetMockBrandData(domain).name == SupportedName(domain).value
  {
    if MockEntry(domain).None? {
      SupportedBrandsShape();
    } else {
      MockedNames(domain);
    }
  }

  /** The offline entries repeat the table's names. */
  lemma MockedNames(domain: string)
    requires MockEntry(domain).Some?
    ensures SupportedName(domain).Some? && MockEntry(domain).value.name == SupportedName(domain).value
  {
    if domain == "spotify.com" {
      assert SupportedName(domain) == Some("Spotify");
    } else if domain == "apple.com" {
      assert SupportedBrands[1..][0].domain == "apple.com";
      assert SupportedName(domain) == Some("Apple");
    } else {
      assert SupportedBrands[1..][1..][0].domain == "github.com";
      assert SupportedName(domain) == Some("GitHub");
    }
  }

  /** `fetchBrandData`: without an API key, or when the request fails, the mock data; otherwise the response. */
  function FetchBrandData(domain: string, apiKey: Option<string>, response: Option<BrandfetchResponse>): (r: BrandfetchResponse)
    ensures apiKey == None || apiKey == Some("") || response == None ==> r == GetMockBrandData(domain)
    ensures apiKey.Some? && apiKey.value != "" && response.Some? ==> r == response.value
  {
    if apiKey == None || apiKey == Some("") then GetMockBrandData(domain)
    else match response
      case Some(data) => data
      case None => GetMockBrandData(domain)
  }

  // ------------------------------------------------------------ transformToBrand

  /** `colors.find(c => c.type === kind)`, as the index of the first colour of that type. */
  function FirstOfKind(colors: seq<FetchedColor>, kind: string): (r: Option<nat>)
    ensures r.Some? ==> r.value < |colors| && colors[r.value].kind == kind
    ensures r.Some? ==> forall j | 0 <= j < r.value :: colors[j].kind != kind
    ensures r == None ==> forall j | 0 <= j < |colors| :: colors[j].kind != kind
  {
    if colors == [] then None
    else if colors[0].kind == kind then Some(0)
    else match FirstOfKind(colors[1..], kind)
      case Some(i) => Some(i + 1)
      case None => None
  }

  /**
   * `(colors?.find(c => c.type === kind) || colors?.[position] || { hex: fallback }).hex`:
   * the first colour of the type, else the colour at the position, else the fallback.
   */
  function PickHex(colors: Option<seq<FetchedColor>>, kind: string, position: nat, fallback: string): (hex: string)
    ensures var cs := colors.GetOr([]);
      (exists i | 0 <= i < |cs| :: cs[i].kind == kind) ==>
        exists i | 0 <= i < |cs| :: cs[i].kind == kind && hex == cs[i].hex && forall j | 0 <= j < i :: cs[j].kind != kind
    ensures var cs := colors.GetOr([]);
      (forall i | 0 <= i < |cs| :: cs[i].kind != kind) ==> hex == if position < |cs| then cs[position].hex else fallback
  {
    var cs := colors.GetOr([]);
    match FirstOfKind(cs, kind)
    case Some(i) => cs[i].hex
    case None => if position < |cs| then cs[position].hex else fallback
  }

  /**
   * `colors?.find(c => c.type === 'light')?.hex || '#FFFFFF'`: the first light
   * colour's hex, unless there is no light colour or its hex is empty.
   */
  function LightHex(colors: Option<seq<FetchedColor>>): (hex: string)
    ensures var cs := colors.GetOr([]);
      forall i | 0 <= i < |cs| && cs[i].kind == "light" && (forall j | 0 <= j < i :: cs[j].kind != "light") ::
        hex == if cs[i].hex != "" then cs[i].hex else "#FFFFFF"
    ensures var cs := colors.GetOr([]);
      (forall i | 0 <= i < |cs| :: cs[i].kind != "light") ==> hex == "#FFFFFF"
  {
    var cs := colors.GetOr([]);
    match FirstOfKind(cs, "light")
    case Some(i) => OrElse(Some(cs[i].hex), "#FFFFFF")
    case None => "#FFFFFF"
  }

  /** `fonts?.[position]?.name || fallback`. */
  function FontName(fonts: Option<seq<FetchedFont>>, position: nat, fallback: string): (name: string)
    ensures var fs := fonts.GetOr([]);
      name == if position < |fs| && fs[position].name != "" then fs[position].name else fallback
  {
    var fs := fonts.GetOr([]);
    if position < |fs| then OrString(fs[position].name, fallback) else fallback
  }

  /** `logo?.[0]?.formats?.[0]?.src || ''`. */
  function LogoUrl(logo: Option<seq<FetchedLogo>>): (url: string)
    ensures logo == None || logo == Some([]) ==> url == ""
    ensures logo.Some? && |logo.value| > 0 && |logo.value[0].formats| > 0 ==> url == logo.value[0].formats[0].src
    ensures logo.Some? && |logo.value| > 0 && logo.value[0].formats == [] ==> url == ""
  {
    match logo
    case Some(ls) =>
      if |ls| > 0 && |ls[0].formats| > 0 then ls[0].formats[0].src else ""
    case None => ""
  }

  /** `transformToBrand`. */
  function TransformToBrand(data: BrandfetchResponse): (b: Brand)
    ensures b.primaryColor == PickHex(data.colors, "accent", 0, "#000000")
    ensures b.secondaryColor == PickHex(data.colors, "dark", 1, "#666666")
    ensures b.primary == b.primaryColor && b.colors.primary == b.primaryColor && b.colors.secondary == b.secondaryColor
    ensures b.guidelines.colors.primary == [b.primaryColor] && b.guidelines.colors.secondary == [b.secondaryColor]
    ensures b.colors.accent == LightHex(data.colors) && b.guidelines.colors.accent == [b.colors.accent]
    ensures b.id == ReplaceFirst(data.domain, '.', "-")
    ensures b.website == "https://" + data.domain && b.guidelines.brandUrl == b.website
    ensures b.name == data.name && b.displayName == data.name && b.domain == data.domain
    ensures b.guidelines.fonts == BrandFonts(FontName(data.fonts, 0, "Inter"), FontName(data.fonts, 1, "Arial"))
    ensures b.logo == LogoUrl(data.logo) && b.guidelines.logoUrl == b.logo
  {
    var primary := PickHex(data.colors, "accent", 0, "#000000");
    var secondary := PickHex(data.colors, "dark", 1, "#666666");
    var accent := LightHex(data.colors);
    var logoUrl := LogoUrl(data.logo);
    Brand(
      id := ReplaceFirst(data.domain, '.', "-"),
      name := data.name,
      displayName := data.name,
      logo := logoUrl,
      primaryColor := primary,
      secondaryColor := secondary,
      website := "https://" + data.domain,
      domain := data.domain,
      primary := primary,
      colors := BrandColors(primary, secondary, accent),
      guidelines := Guidelines(
        GuidelineColors([primary], [secondary], [accent]),
        BrandFonts(FontName(data.fonts, 0, "Inter"), FontName(data.fonts, 1, "Arial")),
        logoUrl,
        "https://" + data.domain))
  }

  /** A response without colours, fonts or logo gets every default. */
  lemma TransformDefaults(data: BrandfetchResponse)
    requires data.colors == None && data.fonts == None && data.logo == None
    ensures var b := TransformToBrand(data);
      && b.primaryColor == "#000000" && b.secondaryColor == "#666666" && b.colors.accent == "#FFFFFF"
      && b.guidelines.fonts == BrandFonts("Inter", "Arial") && b.logo == ""
  {
  }

  /** The id replaces only the first '.' of the domain: 'cash.app' becomes 'cash-app'. */
  lemma BrandIdOfDomain(data: BrandfetchResponse)
    requires '.' in data.domain
    ensures var i := FirstIndex(data.domain, '.');
      TransformToBrand(data).id == data.domain[..i] + "-" + data.domain[i + 1..]
  {
  }

  lemma GitHubKinds()
    ensures FirstOfKind(GitHubColors, "accent") == Some(2)
    ensures FirstOfKind(GitHubColors, "dark") == Some(0)
    ensures FirstOfKind(GitHubColors, "light") == Some(1)
  {
    assert GitHubColors[1..][1..][0].kind == "accent";
  }

  /** GitHub's mock lists its accent third: the accent still wins over the first colour. */
  lemma GitHubMockBrand()
    ensures var b := TransformToBrand(GetMockBrandData("github.com"));
      b.primaryColor == "#0366D6" && b.secondaryColor == "#24292E" && b.colors.accent == "#FFFFFF"
  {
    GitHubMockColors();
    GitHubColorsPicked(GetMockBrandData("github.com"));
  }

  lemma GitHubMockColors()
    ensures GetMockBrandData("github.com").colors == Some(GitHubColors)
  {
  }

  lemma GitHubColorsPicked(data: BrandfetchResponse)
    requires data.colors == Some(GitHubColors)
    ensures var b := TransformToBrand(data);
      b.primaryColor == "#0366D6" && b.secondaryColor == "#24292E" && b.colors.accent == "#FFFFFF"
  {
    GitHubKinds();
  }
}

/**
 * Parts of the documents VS Code reads from a theme extension that both
 * exporters build: token colour rules, theme contributions, repositories.
 */
module Documents {
  import opened Wrappers
  import opened Types

  /** The `uiTheme` of a contribution: VS Code's dark base for dark themes, its light base otherwise. */
  function UiTheme(v: Variant): (ui: string)
    ensures ui == "vs-dark" <==> v == Dark
  {
    if v == Dark then "vs-dark" else "vs"
  }

  /** The `settings` of a token colour rule; absent members are left out of the JSON. */
  datatype TokenSettings = TokenSettings(foreground: Option<string>, background: Option<string>, fontStyle: Option<string>)

  /** One entry of `tokenColors`: a TextMate scope selector list and its style. */
  datatype TokenRule = TokenRule(name: Option<string>, scope: Option<seq<string>>, settings: TokenSettings)

  /** An entry of `contributes.themes` in an extension manifest (`displayLabel` is its `label`). */
  datatype ThemeContribution = ThemeContribution(displayLabel: string, uiTheme: string, path: string)

  /** The `repository` member of an extension manifest. */
  datatype Repository = Repository(kind: string, url: string)

  /** A rule with a name, scopes, and only a foreground colour. */
  function Colored(name: string, scope: seq<string>, foreground: string): TokenRule {
    TokenRule(Some(name), Some(scope), TokenSettings(Some(foreground), None, None))
  }

  /** A rule with a name, scopes, a foreground colour and a font style. */
  function ColoredStyled(name: string, scope: seq<string>, foreground: string, fontStyle: string): TokenRule {
    TokenRule(Some(name), Some(scope), TokenSettings(Some(foreground), None, Some(fontStyle)))
  }

  /** A rule with a name, scopes, and only a font style. */
  function Styled(name: string, scope: seq<string>, fontStyle: string): TokenRule {
    TokenRule(Some(name), Some(scope), TokenSettings(None, None, Some(fontStyle)))
  }
}

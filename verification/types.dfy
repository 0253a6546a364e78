/**
 * The vocabulary shared by the whole pipeline: themes, brands, colour maps, and
 * the filter and sort settings of the gallery (vsskin-app/src/types/index.ts).
 */
module Types {
  import opened Wrappers

  /** A theme is either light or dark; `VariantName` is how the source spells it. */
  datatype Variant = Light | Dark

  function VariantName(v: Variant): (name: string)
    ensures name == "dark" <==> v == Dark
    ensures name == "light" <==> v == Light
  {
    match v
    case Light => "light"
    case Dark => "dark"
  }

  /**
   * The colour keys of a VS Code colour theme that the generator and the two
   * exporters read or write, one constructor per key; `TokenKey` gives the key.
   */
  datatype Token =
    EditorBackground
    | EditorForeground
    | ActivityBarBackground
    | ActivityBarForeground
    | SideBarBackground
    | SideBarForeground
    | StatusBarBackground
    | StatusBarForeground
    | TitleBarActiveBackground
    | TitleBarActiveForeground
    | EditorSelectionBackground
    | EditorLineHighlightBackground
    | EditorFindMatchBackground
    | EditorFindMatchHighlightBackground
    | ActivityBarInactiveForeground
    | ActivityBarActiveBorder
    | ActivityBarBadgeBackground
    | ActivityBarBadgeForeground
    | SideBarBorder
    | SideBarTitleForeground
    | SideBarSectionHeaderBackground
    | SideBarSectionHeaderForeground
    | StatusBarBorder
    | StatusBarItemHoverBackground
    | StatusBarItemProminentBackground
    | StatusBarItemProminentForeground
    | TitleBarInactiveBackground
    | TitleBarInactiveForeground
    | TitleBarBorder
    | TabActiveBackground
    | TabActiveForeground
    | TabActiveBorder
    | TabInactiveBackground
    | TabInactiveForeground
    | TabBorder
    | PanelBackground
    | PanelBorder
    | PanelTitleActiveForeground
    | PanelTitleInactiveForeground
    | TerminalBackground
    | TerminalForeground
    | TerminalAnsiBlack
    | TerminalAnsiRed
    | TerminalAnsiGreen
    | TerminalAnsiYellow
    | TerminalAnsiBlue
    | TerminalAnsiMagenta
    | TerminalAnsiCyan
    | TerminalAnsiWhite
    | ScrollbarShadow
    | ScrollbarSliderBackground
    | ScrollbarSliderHoverBackground
    | ScrollbarSliderActiveBackground
    | ButtonBackground
    | ButtonForeground
    | ButtonHoverBackground
    | ButtonSecondaryBackground
    | ButtonSecondaryForeground
    | ButtonSecondaryHoverBackground
    | InputBackground
    | InputForeground
    | InputBorder
    | InputOptionActiveBorder
    | InputValidationErrorBackground
    | InputValidationErrorBorder
    | DropdownBackground
    | DropdownForeground
    | DropdownBorder
    | ListActiveSelectionBackground
    | ListActiveSelectionForeground
    | ListInactiveSelectionBackground
    | ListHoverBackground
    | ListFocusBackground
    | BadgeBackground
    | BadgeForeground
    | ProgressBarBackground
    | NotificationCenterBorder
    | NotificationCenterHeaderBackground
    | NotificationToastBorder
    | NotificationsBackground
    | NotificationsForeground
    | NotificationsBorder
    | ExtensionButtonProminentBackground
    | ExtensionButtonProminentForeground
    | ExtensionButtonProminentHoverBackground
    | PeekViewBorder
    | PeekViewEditorBackground
    | PeekViewTitleBackground
    | GitDecorationModifiedResourceForeground
    | GitDecorationDeletedResourceForeground
    | GitDecorationAddedResourceForeground
    | GitDecorationUntrackedResourceForeground
    | MenuBackground
    | MenuForeground
    | MenuSelectionBackground
    | MenuSelectionForeground
    | MenuSeparatorBackground
    | EditorWidgetBackground
    | EditorWidgetBorder
    | EditorHoverWidgetBackground
    | EditorHoverWidgetBorder
    | MinimapBackground
    | MinimapSliderBackground
    | MinimapSliderHoverBackground
    | MinimapSliderActiveBackground
    | ActivityBarBorder
    | EditorLineNumberForeground
    | EditorLineNumberActiveForeground
    | EditorCursorForeground
    | EditorSelectionHighlightBackground
    | EditorWordHighlightBackground
    | EditorWordHighlightStrongBackground
    | EditorBracketMatchBackground
    | EditorBracketMatchBorder
    | EditorGroupBorder
    | EditorGroupHeaderTabsBackground
    | EditorGroupHeaderTabsBorder
    | StatusBarDebuggingBackground
    | StatusBarDebuggingForeground
    | StatusBarNoFolderBackground
    | PanelTitleActiveBorder
    | InputPlaceholderForeground
    | ListHighlightForeground
    | TreeIndentGuidesStroke
    | EditorWidgetForeground
    | PeekViewBackground
    | PeekViewTitleLabelForeground
    | NotificationLinkForeground
    | PickerGroupForeground
    | PickerGroupBorder
    | DebugToolBarBackground
    | DebugToolBarBorder
    | WelcomePageButtonBackground
    | WelcomePageButtonHoverBackground
    | WalkThroughEmbeddedEditorBackground
    | GitDecorationIgnoredResourceForeground
    | GitDecorationConflictingResourceForeground
    | BreadcrumbBackground
    | BreadcrumbForeground
    | BreadcrumbFocusForeground
    | BreadcrumbActiveSelectionForeground
    | BreadcrumbPickerBackground
    | MenuBorder
    | MenubarSelectionBackground
    | MenubarSelectionForeground
    | SettingsHeaderForeground
    | SettingsModifiedItemIndicator
    | SettingsDropdownBackground
    | SettingsDropdownForeground
    | SettingsDropdownBorder
    | SettingsCheckboxBackground
    | SettingsCheckboxForeground
    | SettingsCheckboxBorder
    | SettingsTextInputBackground
    | SettingsTextInputForeground
    | SettingsTextInputBorder
    | SettingsNumberInputBackground
    | SettingsNumberInputForeground
    | SettingsNumberInputBorder
    | TextLinkForeground

  /** The key under which a colour is stored in a theme document. */
  function TokenKey(t: Token): string {
    match t
    case EditorBackground => "editor.background"
    case EditorForeground => "editor.foreground"
    case ActivityBarBackground => "activityBar.background"
    case ActivityBarForeground => "activityBar.foreground"
    case SideBarBackground => "sideBar.background"
    case SideBarForeground => "sideBar.foreground"
    case StatusBarBackground => "statusBar.background"
    case StatusBarForeground => "statusBar.foreground"
    case TitleBarActiveBackground => "titleBar.activeBackground"
    case TitleBarActiveForeground => "titleBar.activeForeground"
    case EditorSelectionBackground => "editor.selectionBackground"
    case EditorLineHighlightBackground => "editor.lineHighlightBackground"
    case EditorFindMatchBackground => "editor.findMatchBackground"
    case EditorFindMatchHighlightBackground => "editor.findMatchHighlightBackground"
    case ActivityBarInactiveForeground => "activityBar.inactiveForeground"
    case ActivityBarActiveBorder => "activityBar.activeBorder"
    case ActivityBarBadgeBackground => "activityBarBadge.background"
    case ActivityBarBadgeForeground => "activityBarBadge.foreground"
    case SideBarBorder => "sideBar.border"
    case SideBarTitleForeground => "sideBarTitle.foreground"
    case SideBarSectionHeaderBackground => "sideBarSectionHeader.background"
    case SideBarSectionHeaderForeground => "sideBarSectionHeader.foreground"
    case StatusBarBorder => "statusBar.border"
    case StatusBarItemHoverBackground => "statusBarItem.hoverBackground"
    case StatusBarItemProminentBackground => "statusBarItem.prominentBackground"
    case StatusBarItemProminentForeground => "statusBarItem.prominentForeground"
    case TitleBarInactiveBackground => "titleBar.inactiveBackground"
    case TitleBarInactiveForeground => "titleBar.inactiveForeground"
    case TitleBarBorder => "titleBar.border"
    case TabActiveBackground => "tab.activeBackground"
    case TabActiveForeground => "tab.activeForeground"
    case TabActiveBorder => "tab.activeBorder"
    case TabInactiveBackground => "tab.inactiveBackground"
    case TabInactiveForeground => "tab.inactiveForeground"
    case TabBorder => "tab.border"
    case PanelBackground => "panel.background"
    case PanelBorder => "panel.border"
    case PanelTitleActiveForeground => "panelTitle.activeForeground"
    case PanelTitleInactiveForeground => "panelTitle.inactiveForeground"
    case TerminalBackground => "terminal.background"
    case TerminalForeground => "terminal.foreground"
    case TerminalAnsiBlack => "terminal.ansiBlack"
    case TerminalAnsiRed => "terminal.ansiRed"
    case TerminalAnsiGreen => "terminal.ansiGreen"
    case TerminalAnsiYellow => "terminal.ansiYellow"
    case TerminalAnsiBlue => "terminal.ansiBlue"
    case TerminalAnsiMagenta => "terminal.ansiMagenta"
    case TerminalAnsiCyan => "terminal.ansiCyan"
    case TerminalAnsiWhite => "terminal.ansiWhite"
    case ScrollbarShadow => "scrollbar.shadow"
    case ScrollbarSliderBackground => "scrollbarSlider.background"
    case ScrollbarSliderHoverBackground => "scrollbarSlider.hoverBackground"
    case ScrollbarSliderActiveBackground => "scrollbarSlider.activeBackground"
    case ButtonBackground => "button.background"
    case ButtonForeground => "button.foreground"
    case ButtonHoverBackground => "button.hoverBackground"
    case ButtonSecondaryBackground => "button.secondaryBackground"
    case ButtonSecondaryForeground => "button.secondaryForeground"
    case ButtonSecondaryHoverBackground => "button.secondaryHoverBackground"
    case InputBackground => "input.background"
    case InputForeground => "input.foreground"
    case InputBorder => "input.border"
    case InputOptionActiveBorder => "inputOption.activeBorder"
    case InputValidationErrorBackground => "inputValidation.errorBackground"
    case InputValidationErrorBorder => "inputValidation.errorBorder"
    case DropdownBackground => "dropdown.background"
    case DropdownForeground => "dropdown.foreground"
    case DropdownBorder => "dropdown.border"
    case ListActiveSelectionBackground => "list.activeSelectionBackground"
    case ListActiveSelectionForeground => "list.activeSelectionForeground"
    case ListInactiveSelectionBackground => "list.inactiveSelectionBackground"
    case ListHoverBackground => "list.hoverBackground"
    case ListFocusBackground => "list.focusBackground"
    case BadgeBackground => "badge.background"
    case BadgeForeground => "badge.foreground"
    case ProgressBarBackground => "progressBar.background"
    case NotificationCenterBorder => "notificationCenter.border"
    case NotificationCenterHeaderBackground => "notificationCenterHeader.background"
    case NotificationToastBorder => "notificationToast.border"
    case NotificationsBackground => "notifications.background"
    case NotificationsForeground => "notifications.foreground"
    case NotificationsBorder => "notifications.border"
    case ExtensionButtonProminentBackground => "extensionButton.prominentBackground"
    case ExtensionButtonProminentForeground => "extensionButton.prominentForeground"
    case ExtensionButtonProminentHoverBackground => "extensionButton.prominentHoverBackground"
    case PeekViewBorder => "peekView.border"
    case PeekViewEditorBackground => "peekViewEditor.background"
    case PeekViewTitleBackground => "peekViewTitle.background"
    case GitDecorationModifiedResourceForeground => "gitDecoration.modifiedResourceForeground"
    case GitDecorationDeletedResourceForeground => "gitDecoration.deletedResourceForeground"
    case GitDecorationAddedResourceForeground => "gitDecoration.addedResourceForeground"
    case GitDecorationUntrackedResourceForeground => "gitDecoration.untrackedResourceForeground"
    case MenuBackground => "menu.background"
    case MenuForeground => "menu.foreground"
    case MenuSelectionBackground => "menu.selectionBackground"
    case MenuSelectionForeground => "menu.selectionForeground"
    case MenuSeparatorBackground => "menu.separatorBackground"
    case EditorWidgetBackground => "editorWidget.background"
    case EditorWidgetBorder => "editorWidget.border"
    case EditorHoverWidgetBackground => "editorHoverWidget.background"
    case EditorHoverWidgetBorder => "editorHoverWidget.border"
    case MinimapBackground => "minimap.background"
    case MinimapSliderBackground => "minimapSlider.background"
    case MinimapSliderHoverBackground => "minimapSlider.hoverBackground"
    case MinimapSliderActiveBackground => "minimapSlider.activeBackground"
    case ActivityBarBorder => "activityBar.border"
    case EditorLineNumberForeground => "editorLineNumber.foreground"
    case EditorLineNumberActiveForeground => "editorLineNumber.activeForeground"
    case EditorCursorForeground => "editorCursor.foreground"
    case EditorSelectionHighlightBackground => "editor.selectionHighlightBackground"
    case EditorWordHighlightBackground => "editor.wordHighlightBackground"
    case EditorWordHighlightStrongBackground => "editor.wordHighlightStrongBackground"
    case EditorBracketMatchBackground => "editorBracketMatch.background"
    case EditorBracketMatchBorder => "editorBracketMatch.border"
    case EditorGroupBorder => "editorGroup.border"
    case EditorGroupHeaderTabsBackground => "editorGroupHeader.tabsBackground"
    case EditorGroupHeaderTabsBorder => "editorGroupHeader.tabsBorder"
    case StatusBarDebuggingBackground => "statusBar.debuggingBackground"
    case StatusBarDebuggingForeground => "statusBar.debuggingForeground"
    case StatusBarNoFolderBackground => "statusBar.noFolderBackground"
    case PanelTitleActiveBorder => "panelTitle.activeBorder"
    case InputPlaceholderForeground => "input.placeholderForeground"
    case ListHighlightForeground => "list.highlightForeground"
    case TreeIndentGuidesStroke => "tree.indentGuidesStroke"
    case EditorWidgetForeground => "editorWidget.foreground"
    case PeekViewBackground => "peekView.background"
    case PeekViewTitleLabelForeground => "peekViewTitleLabel.foreground"
    case NotificationLinkForeground => "notificationLink.foreground"
    case PickerGroupForeground => "pickerGroup.foreground"
    case PickerGroupBorder => "pickerGroup.border"
    case DebugToolBarBackground => "debugToolBar.background"
    case DebugToolBarBorder => "debugToolBar.border"
    case WelcomePageButtonBackground => "welcomePage.buttonBackground"
    case WelcomePageButtonHoverBackground => "welcomePage.buttonHoverBackground"
    case WalkThroughEmbeddedEditorBackground => "walkThrough.embeddedEditorBackground"
    case GitDecorationIgnoredResourceForeground => "gitDecoration.ignoredResourceForeground"
    case GitDecorationConflictingResourceForeground => "gitDecoration.conflictingResourceForeground"
    case BreadcrumbBackground => "breadcrumb.background"
    case BreadcrumbForeground => "breadcrumb.foreground"
    case BreadcrumbFocusForeground => "breadcrumb.focusForeground"
    case BreadcrumbActiveSelectionForeground => "breadcrumb.activeSelectionForeground"
    case BreadcrumbPickerBackground => "breadcrumbPicker.background"
    case MenuBorder => "menu.border"
    case MenubarSelectionBackground => "menubar.selectionBackground"
    case MenubarSelectionForeground => "menubar.selectionForeground"
    case SettingsHeaderForeground => "settings.headerForeground"
    case SettingsModifiedItemIndicator => "settings.modifiedItemIndicator"
    case SettingsDropdownBackground => "settings.dropdownBackground"
    case SettingsDropdownForeground => "settings.dropdownForeground"
    case SettingsDropdownBorder => "settings.dropdownBorder"
    case SettingsCheckboxBackground => "settings.checkboxBackground"
    case SettingsCheckboxForeground => "settings.checkboxForeground"
    case SettingsCheckboxBorder => "settings.checkboxBorder"
    case SettingsTextInputBackground => "settings.textInputBackground"
    case SettingsTextInputForeground => "settings.textInputForeground"
    case SettingsTextInputBorder => "settings.textInputBorder"
    case SettingsNumberInputBackground => "settings.numberInputBackground"
    case SettingsNumberInputForeground => "settings.numberInputForeground"
    case SettingsNumberInputBorder => "settings.numberInputBorder"
    case TextLinkForeground => "textLink.foreground"
  }

  /** A colour map: token to colour string (the index signature of ThemeColors). */
  type ThemeColors = map<Token, string>

  /** The ten colours every theme must define. */
  predicate HasCoreTokens(colors: ThemeColors) {
    && EditorBackground in colors && EditorForeground in colors
    && ActivityBarBackground in colors && ActivityBarForeground in colors
    && SideBarBackground in colors && SideBarForeground in colors
    && StatusBarBackground in colors && StatusBarForeground in colors
    && TitleBarActiveBackground in colors && TitleBarActiveForeground in colors
  }

  datatype BrandColors = BrandColors(primary: string, secondary: string, accent: string)

  datatype GuidelineColors = GuidelineColors(primary: seq<string>, secondary: seq<string>, accent: seq<string>)

  datatype BrandFonts = BrandFonts(primary: string, secondary: string)

  datatype Guidelines = Guidelines(colors: GuidelineColors, fonts: BrandFonts, logoUrl: string, brandUrl: string)

  /** A company whose visual identity themes are derived from. */
  datatype Brand = Brand(
    id: string,
    name: string,
    displayName: string,
    logo: string,
    primaryColor: string,
    secondaryColor: string,
    website: string,
    domain: string,
    primary: string,
    colors: BrandColors,
    guidelines: Guidelines)

  datatype CodeSnippet = CodeSnippet(language: string, code: string, title: string)

  datatype ThemePreview = ThemePreview(screenshots: seq<string>, codeSnippets: seq<CodeSnippet>, miniPreview: string)

  datatype ThemeInstallation = ThemeInstallation(
    downloadUrl: string,
    installInstructions: seq<string>,
    vsCodeMarketplaceUrl: Option<string>,
    githubUrl: Option<string>)

  /** Catalogue data; `lastUpdated` is an ISO date string, `rating` a decimal. */
  datatype ThemeMetadata = ThemeMetadata(
    version: string,
    author: string,
    tags: seq<string>,
    downloads: int,
    rating: real,
    lastUpdated: string,
    compatibility: seq<string>,
    preview: Option<string>,
    description: Option<string>,
    repository: Option<string>)

  /** A colour theme; `themeType` is the source's `type` field. */
  datatype Theme = Theme(
    id: string,
    name: string,
    displayName: string,
    description: string,
    brand: Brand,
    colors: ThemeColors,
    themeType: Variant,
    tags: seq<string>,
    preview: ThemePreview,
    installation: ThemeInstallation,
    metadata: ThemeMetadata)

  /** Gallery filters; empty lists and an empty query filter nothing. */
  datatype ThemeFilters = ThemeFilters(brands: seq<string>, types: seq<Variant>, tags: seq<string>, searchQuery: string)

  datatype SortField = ByName | ByRating | ByDownloads | ByLastUpdated

  datatype SortDirection = Asc | Desc

  datatype ThemeSortOptions = ThemeSortOptions(field: SortField, direction: SortDirection)
}

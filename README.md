# AdGuard for iOS: theme service and DNS settings screen, in Dafny

This project models two decision tables from the presentation layer of
AdGuard for iOS.

- **The theme service** (module `Theme`, `theme_service.dfy`). It has a fixed
  palette chosen by the configuration's `darkTheme` flag. Its `setup...`
  operations write colours, bar styles and images onto the UI element they are
  given. The service reads the flag afresh on every call, so every getter and
  every setup takes it as the parameter `dark`. Palette getters and the style
  choices are functions. UI elements are small classes holding only the fields
  the theme service and the settings screen read or write. Setup operations are methods. Most `modifies` clauses
  name exactly the fields written. `SetupNavigationBar`, `SetupLabels`,
  `SetupPopupLabels`, `SetupPopupButtons`, `SetupSearchBar` and `SetupTable`
  name whole objects instead. Their `ensures` then state the value of every
  field of those objects. The batch setups `setupLabels`, `setupPopupLabels`
  and `setupPopupButtons` are loops over a sequence of element references.
  The two label loops are proved against functions on the labels' flags
  (`LabelsTextColors`, `PopupLabelsTextColors`). The button loop is proved
  to give every button the colours `SetupPopupButton` gives one button.
- **The DNS settings screen** (module `DnsSettings`,
  `dns_settings_controller.dfy`). The screen has three sections: title, menu
  and "get Pro". `RowShown` states which rows are visible, from the Pro status
  and advanced mode. The row-height rule is proved equal to that policy. The
  cell set-up method writes the hidden flag for the title's state row and for
  every row of the menu and offer sections. On those rows it is proved to hide
  exactly the rows the policy hides. Every other row keeps its previous flag.
  The method is also proved to dim and disable the menu while protection is
  off. The trial-period title is a function returning a localisation key and
  a number. It is proved to name the product's trial period, except that one week reads as seven days.
  The widgets that mirror the protection state are written by
  `UpdateVpnInfo`.

Colours are symbolic. `Hex("RRGGBB")` holds the six digits of the colour
literal in ThemeService.swift or DnsSettingsController.swift, without the `#`. `White`, `Black`, `Clear`
and `DarkGray` stand for the platform's named colours. A `nil` colour is `None` of
`Optional.Option`. The collaborators the screen asks at lay-out time become
the fields of `ScreenState`: the configuration's theme, Pro status and
advanced mode, and the protection service's current state. The table's normal
row height is a parameter.

The model follows the code in three places where its intent might be read
otherwise:
- The tag-button colours are not a full swap between modes. The dark-mode
  title (#4D4D4D) is the light-mode chip colour. The light-mode title
  (#D8D8D8) is not the dark-mode chip colour (#F3F3F3). Both titles are the
  separator colour of their mode.
- The search field's background is the bottom-bar colour in both modes. In
  light mode that is #F3F3F3, not the white popup background.
- The cell set-up writes the network-settings separator only for the
  DNS-filtering row and only under Pro status. Otherwise the separator keeps
  whatever it had.

## Model

| member | source | states |
|---|---|---|
| Theme.BackgroundColor | AdguardExtension/AdguardApp/Services/ThemeService.swift:65-67 | black exactly in dark mode, white exactly in light mode |
| Theme.PopupBackgroundColor | AdguardExtension/AdguardApp/Services/ThemeService.swift:69-71 | #131313 in dark mode, which differs from the page background; white in light mode, the page background |
| Theme.BottomBarBackgroundColor | AdguardExtension/AdguardApp/Services/ThemeService.swift:73-75 | the popup colour #131313 in dark mode; #F3F3F3 in light mode, which differs from the popup colour |
| Theme.BlackTextColor | AdguardExtension/AdguardApp/Services/ThemeService.swift:77-79 | white exactly in dark mode, #222222 in light mode |
| Theme.GrayTextColor | AdguardExtension/AdguardApp/Services/ThemeService.swift:81-83 | white exactly in dark mode, #4A4A4A in light mode |
| Theme.LightGrayTextColor | AdguardExtension/AdguardApp/Services/ThemeService.swift:85-87 | white exactly in dark mode, #888888 in light mode |
| Theme.PlaceholderTextColor | AdguardExtension/AdguardApp/Services/ThemeService.swift:89-91 | a hex colour, #777777 exactly in dark mode and #DDDDDD exactly in light mode |
| Theme.SeparatorColor | AdguardExtension/AdguardApp/Services/ThemeService.swift:93-95 | a hex colour, 4D4D4D exactly in dark mode and D8D8D8 exactly in light mode |
| Theme.SelectedCellColor | AdguardExtension/AdguardApp/Services/ThemeService.swift:97-99 | #0E1911 in dark mode, the bottom-bar colour in light mode; never the page or popup background |
| Theme.TextColorsByMode | AdguardExtension/AdguardApp/Services/ThemeService.swift:77-87 | the black, grey and light-grey text colours are all white in dark mode and pairwise different in light mode |
| Theme.TagButtonBackground | AdguardExtension/AdguardApp/Services/ThemeService.swift:102 | #F3F3F3 in dark mode, the light-mode bottom-bar colour; #4D4D4D in light mode, the dark-mode separator colour |
| Theme.TagButtonTitle | AdguardExtension/AdguardApp/Services/ThemeService.swift:103 | the separator colour of the mode, never the chip colour of the same mode; in dark mode, the light-mode chip colour |
| Theme.TagButtonNotFullySwapped | AdguardExtension/AdguardApp/Services/ThemeService.swift:101-104 | the dark title equals the light chip, but the light title differs from the dark chip |
| Theme.SetupTagButton | AdguardExtension/AdguardApp/Services/ThemeService.swift:101-104 | sets the chip colour and the normal title colour to the tag-button colours; nothing else changes |
| Theme.SetupImage | AdguardExtension/AdguardApp/Services/ThemeService.swift:106-108 | the shown image becomes the dark-theme image in dark mode and the light-theme image otherwise; only `image` changes |
| Theme.KindOf | AdguardExtension/AdguardApp/Services/ThemeService.swift:112 | a label is grey exactly when `greyText` is set, light grey exactly when only `lightGreyText` is set, normal otherwise |
| Theme.LabelTextColor | AdguardExtension/AdguardApp/Services/ThemeService.swift:110-113 | grey text whenever `greyText` is set, even with `lightGreyText`; light grey for `lightGreyText` alone; black text otherwise; white in dark mode |
| Theme.LabelColorDeterminesKind | AdguardExtension/AdguardApp/Services/ThemeService.swift:110-113 | in light mode two labels get the same colour exactly when they are of the same kind; in dark mode all labels get the same colour |
| Theme.SetupLabel | AdguardExtension/AdguardApp/Services/ThemeService.swift:110-113 | the label's text colour becomes `LabelTextColor` of its flags; only `textColor` changes |
| Theme.LabelsTextColors | AdguardExtension/AdguardApp/Services/ThemeService.swift:115-119 | one colour per label, in order, each the colour the single-label rule gives its flags |
| Theme.SetupLabels | AdguardExtension/AdguardApp/Services/ThemeService.swift:115-119 | every label's flags are unchanged; the labels' text colours are `LabelsTextColors` of their flags |
| Theme.PopupLabelTextColor | AdguardExtension/AdguardApp/Services/ThemeService.swift:121-128 | always a hex colour: #888888 exactly for grey labels in dark mode and plain labels in light mode, #F3F3F3 for plain labels in dark mode, #494949 for grey labels in light mode |
| Theme.PopupLabelColorsDistinct | AdguardExtension/AdguardApp/Services/ThemeService.swift:121-128 | grey and plain popup labels always differ, and neither takes the black-text colour of its mode |
| Theme.SetupPopupLabel | AdguardExtension/AdguardApp/Services/ThemeService.swift:121-128 | the label's text colour becomes `PopupLabelTextColor` of its `greyText`; only `textColor` changes |
| Theme.PopupLabelsTextColors | AdguardExtension/AdguardApp/Services/ThemeService.swift:130-134 | one colour per label, in order, each the colour the single popup-label rule gives |
| Theme.SetupPopupLabels | AdguardExtension/AdguardApp/Services/ThemeService.swift:130-134 | every label's flags are unchanged; the labels' text colours are `PopupLabelsTextColors` of their flags |
| Theme.PopupButtonTitleColor | AdguardExtension/AdguardApp/Services/ThemeService.swift:137 | the light-grey text colour in both modes |
| Theme.SetupPopupButton | AdguardExtension/AdguardApp/Services/ThemeService.swift:136-140 | the title colour becomes light grey and the highlighted background the selected-cell colour; nothing else changes |
| Theme.SetupPopupButtons | AdguardExtension/AdguardApp/Services/ThemeService.swift:142-146 | every button gets the single-button title and highlight colours; its normal background is unchanged |
| Theme.NavigationBarTint | AdguardExtension/AdguardApp/Services/ThemeService.swift:151 | clear exactly in dark mode, white exactly in light mode |
| Theme.NavigationBarStyle | AdguardExtension/AdguardApp/Services/ThemeService.swift:152 | black exactly in dark mode, which is exactly when the status bar uses light content |
| Theme.SetupNavigationBar | AdguardExtension/AdguardApp/Services/ThemeService.swift:148-153 | a missing bar changes nothing; otherwise the bar gets the mode's tint and style |
| Theme.SearchTextColor | AdguardExtension/AdguardApp/Services/ThemeService.swift:157-158 | #F3F3F3 in dark mode, which is not the black-text colour; the black-text colour in light mode |
| Theme.SearchFieldBackground | AdguardExtension/AdguardApp/Services/ThemeService.swift:161 | the bottom-bar colour in both modes; the popup colour only in dark mode |
| Theme.SetupSearchBar | AdguardExtension/AdguardApp/Services/ThemeService.swift:155-163 | the bar gets the search text tint and a clear bar tint; its text field, if present, gets the search text colour and background |
| Theme.StatusbarStyle | AdguardExtension/AdguardApp/Services/ThemeService.swift:165-167 | light content exactly in dark mode |
| Theme.ControlTextColor | AdguardExtension/AdguardApp/Services/ThemeService.swift:170 | white exactly in dark mode, the platform dark grey exactly in light mode; equals the black-text colour only in dark mode |
| Theme.SetupTextField | AdguardExtension/AdguardApp/Services/ThemeService.swift:169-171 | the field's text colour becomes the control text colour; nothing else changes |
| Theme.SetupTable | AdguardExtension/AdguardApp/Services/ThemeService.swift:173-176 | the separators take the separator colour; the footer, if any, takes the page background and keeps its other properties |
| Theme.SetupTableCell | AdguardExtension/AdguardApp/Services/ThemeService.swift:178-184 | a fresh view with the selected-cell colour becomes the selected background; the cell and its content view become clear |
| Theme.SetupBarButtonItem | AdguardExtension/AdguardApp/Services/ThemeService.swift:194-196 | the item's tint becomes the control text colour; nothing else changes |
| Theme.SwitchTint | AdguardExtension/AdguardApp/Services/ThemeService.swift:199 | no tint exactly in light mode; in dark mode #4D4D4D, the dark separator colour |
| Theme.SetupSwitch | AdguardExtension/AdguardApp/Services/ThemeService.swift:198-200 | the switch's tint becomes `SwitchTint`; nothing else changes |
| DnsSettings.HeightForRowAt | AdguardExtension/AdguardApp/UI/ViewControllers/MainTabBar/ComplexProtection/DnsSettings/DnsSettingsController.swift:155-178 | the normal height for every row `RowShown` shows and zero for every row it hides |
| DnsSettings.GetProRowHeight | AdguardExtension/AdguardApp/UI/ViewControllers/MainTabBar/ComplexProtection/DnsSettings/DnsSettingsController.swift:158-160 | a get-Pro row is zero high exactly under Pro status and has the normal height otherwise |
| DnsSettings.DnsFilteringRowNeedsAdvancedMode | AdguardExtension/AdguardApp/UI/ViewControllers/MainTabBar/ComplexProtection/DnsSettings/DnsSettingsController.swift:164-166 | without advanced mode the DNS-filtering row is zero high, whatever the Pro status |
| DnsSettings.MenuRowHeight | AdguardExtension/AdguardApp/UI/ViewControllers/MainTabBar/ComplexProtection/DnsSettings/DnsSettingsController.swift:168 | every other menu row has the normal height under Pro status and zero height otherwise |
| DnsSettings.TitleAndOtherRowHeights | AdguardExtension/AdguardApp/UI/ViewControllers/MainTabBar/ComplexProtection/DnsSettings/DnsSettingsController.swift:171-177 | the title's state row has the normal height exactly under Pro status; every other row outside the menu and offer has the normal height |
| DnsSettings.NonProLayout | AdguardExtension/AdguardApp/UI/ViewControllers/MainTabBar/ComplexProtection/DnsSettings/DnsSettingsController.swift:130-149 | without Pro the offer and the description show; the state row and every menu row are hidden |
| DnsSettings.HeightForFooterInSection | AdguardExtension/AdguardApp/UI/ViewControllers/MainTabBar/ComplexProtection/DnsSettings/DnsSettingsController.swift:180-182 | always positive; 32 under the title section and 0.1 under every other section |
| DnsSettings.MenuAlpha | AdguardExtension/AdguardApp/UI/ViewControllers/MainTabBar/ComplexProtection/DnsSettings/DnsSettingsController.swift:142 | between 0 and 1; full exactly while protection is on, half while it is off |
| DnsSettings.DnsSettingsController.TableViewCellForRowAt | AdguardExtension/AdguardApp/UI/ViewControllers/MainTabBar/ComplexProtection/DnsSettings/DnsSettingsController.swift:127-153 | on the rows it writes, the cell is hidden exactly when `RowShown` hides it; other rows keep their hidden flag; menu cells take `MenuAlpha` and accept touches exactly while protection is on; under Pro the DNS-filtering row hides the separator exactly without advanced mode, and no other row touches it; the theme's cell style is applied |
| DnsSettings.HiddenExactlyWhenCollapsed | AdguardExtension/AdguardApp/UI/ViewControllers/MainTabBar/ComplexProtection/DnsSettings/DnsSettingsController.swift:127-178 | for a non-zero normal height, a row is zero high exactly when the visibility policy hides it, which is the flag the cell set-up writes |
| DnsSettings.TitlePeriod | AdguardExtension/AdguardApp/UI/ViewControllers/MainTabBar/ComplexProtection/DnsSettings/DnsSettingsController.swift:240-253 | a title reads as a period exactly when its key is one of the four; the period's unit is the one its key names (days, weeks, months, years) and its count is the title's number |
| DnsSettings.GetTitleString | AdguardExtension/AdguardApp/UI/ViewControllers/MainTabBar/ComplexProtection/DnsSettings/DnsSettingsController.swift:233-258 | a missing product or trial gives the days key with 7; otherwise the title reads back as the trial period, with one week read as seven days |
| DnsSettings.WeeksKeyOnlyForSeveralWeeks | AdguardExtension/AdguardApp/UI/ViewControllers/MainTabBar/ComplexProtection/DnsSettings/DnsSettingsController.swift:243-248 | the weeks key is chosen exactly for a trial of a number of weeks other than one |
| DnsSettings.StateKey | AdguardExtension/AdguardApp/UI/ViewControllers/MainTabBar/ComplexProtection/DnsSettings/DnsSettingsController.swift:205 | `on_state` exactly while protection is on, `off_state` exactly while it is off |
| DnsSettings.IconTint | AdguardExtension/AdguardApp/UI/ViewControllers/MainTabBar/ComplexProtection/DnsSettings/DnsSettingsController.swift:62-63 | #67b279 exactly while protection is on; #888888 (the light-mode light-grey text colour) while it is off |
| DnsSettings.DnsSettingsController.UpdateVpnInfo | AdguardExtension/AdguardApp/UI/ViewControllers/MainTabBar/ComplexProtection/DnsSettings/DnsSettingsController.swift:202-206 | the switch is on exactly while protection is on; the state label and icon take `StateKey` and `IconTint` of that state |
| DnsSettings.DnsSettingsController.ViewWillAppear | AdguardExtension/AdguardApp/UI/ViewControllers/MainTabBar/ComplexProtection/DnsSettings/DnsSettingsController.swift:103-118 | the pending widget state, if any, is handed back to be applied and then cleared; the widgets show the protection state afterwards |

## Left out

- Colour parsing: `UIColor(hexString:)` is not part of this model. Colours are
  symbolic, and `"4D4D4D"` and `"#4D4D4D"` are taken to denote the same
  colour.
- `ThemeService.textColor()` and `textColorDarkMode()` are constant getters
  with no caller in these files. Their values, dark grey and white, are the two
  branches of `ControlTextColor`.
- `setupSearchBar`: the search field is found by key-value lookup. Here it is
  an optional field of the search bar. The empty background image is not
  modelled.
- `setupTableCell` creates a fresh `UIView`. Only its background colour, alpha
  and hidden flag are modelled.
- Notification observers, key-value observation of the Pro status, and
  main-queue dispatch are not modelled. This includes the one-second delay
  before a widget-requested state is applied. `ViewWillAppear` does the
  deferred work as one atomic step.
- DnsSettings.DnsSettingsController.ViewWillAppear: it returns the widget
  request instead of calling the protection service. The state the service
  reports afterwards is a parameter, so the model does not promise that
  protection ends up in the requested state.
- The protection service, DNS providers, purchase service and service
  locator are calls into code not shown. Their answers are parameters or
  fields of `ScreenState`. `updateVpnInfo`'s server name and
  `tableView.reloadData()` are left out for the same reason.
- Localisation is not modelled: no format lookup, no number formatting and no
  upper-casing. Labels hold the localisation key, and the trial title is a
  key and a number.
- `viewDidLoad`, `updateTheme`, `observeProStatus`, `toggleEnableSwitch`,
  `viewDidLayoutSubviews` and `viewForFooterInSection` are wiring and layout.
  `updateTheme` calls `setupSeparators`, which is not part of this model.
- Outlets are implicitly unwrapped weak references. Here they are non-null
  constant fields.

/**
 * The DNS settings screen: a static table of three sections (a title with
 * the protection switch, a menu of DNS settings, and a "get Pro" offer) whose
 * rows are shown, collapsed, dimmed or disabled according to the Pro status,
 * the advanced-mode setting and whether system-wide protection is on; and the
 * widgets that mirror the protection state.
 */
module DnsSettings {
  import opened Optional
  import opened Theme

  // ---------------------------------------------------------------------
  // Table layout
  // ---------------------------------------------------------------------

  const TitleSection := 0
  const MenuSection := 1
  const GetProSection := 2

  const TitleDescriptionCell := 0
  const TitleStateCell := 1

  const DnsFilteringRow := 2

  datatype IndexPath = IndexPath(section: int, row: int)

  /** What the screen reads from its collaborators while it lays out: the
      configuration's theme, Pro status and advanced mode, and the protection
      service's current state. */
  datatype ScreenState = ScreenState(
    darkTheme: bool,
    proStatus: bool,
    advancedMode: bool,
    systemProtectionEnabled: bool)

  /** Which rows the screen shows: the title's description always, the title's
      state row and the menu only to Pro users, the DNS-filtering menu row only
      in advanced mode as well, and the "get Pro" offer only to the others. Rows
      of any other section are always shown. */
  predicate RowShown(proStatus: bool, advancedMode: bool, path: IndexPath)
  {
    if path.section == TitleSection then path.row != TitleStateCell || proStatus
    else if path.section == MenuSection then proStatus && (path.row != DnsFilteringRow || advancedMode)
    else if path.section == GetProSection then !proStatus
    else true
  }

  /** The rows whose hidden flag the cell set-up writes. */
  predicate SetsHidden(path: IndexPath)
  {
    (path.section == TitleSection && path.row == TitleStateCell)
    || path.section == MenuSection
    || path.section == GetProSection
  }

  /** Row height: the table's normal height for a row that is shown, zero for
      one that is not. */
  function HeightForRowAt(proStatus: bool, advancedMode: bool, path: IndexPath, normalHeight: real): (h: real)
    ensures h == (if RowShown(proStatus, advancedMode, path) then normalHeight else 0.0)
  {
    if path.section == GetProSection then
      (if proStatus then 0.0 else normalHeight)
    else if path.section == MenuSection then
      if path.row == DnsFilteringRow && !advancedMode then 0.0
      else (if proStatus then normalHeight else 0.0)
    else if path.section == TitleSection && path.row == TitleStateCell then
      (if proStatus then normalHeight else 0.0)
    else normalHeight
  }

  /** Section footers: a 32-point gap under the title section and a near-zero
      one elsewhere; never zero, which the table would replace by its default. */
  function HeightForFooterInSection(section: int): (h: real)
    ensures h > 0.0
    ensures section == TitleSection ==> h == 32.0
    ensures section != TitleSection ==> h == 0.1
  {
    if section == 0 then 32.0 else 0.1
  }

  /** Opacity of a menu cell's content: full while protection is on, half
      while it is off. */
  function MenuAlpha(systemProtectionEnabled: bool): (a: real)
    ensures 0.0 < a <= 1.0
    ensures a == 1.0 <==> systemProtectionEnabled
    ensures !systemProtectionEnabled ==> a == 0.5
  {
    if systemProtectionEnabled then 1.0 else 0.5
  }

  /** The GetPro offer takes space exactly when the user is not Pro. */
  lemma GetProRowHeight(proStatus: bool, advancedMode: bool, row: int, normalHeight: real)
    requires normalHeight != 0.0
    ensures HeightForRowAt(proStatus, advancedMode, IndexPath(GetProSection, row), normalHeight) == 0.0 <==> proStatus
    ensures !proStatus ==> HeightForRowAt(proStatus, advancedMode, IndexPath(GetProSection, row), normalHeight) == normalHeight
  {
  }

  /** Without advanced mode the DNS-filtering row is collapsed, Pro or not. */
  lemma DnsFilteringRowNeedsAdvancedMode(proStatus: bool, normalHeight: real)
    ensures HeightForRowAt(proStatus, false, IndexPath(MenuSection, DnsFilteringRow), normalHeight) == 0.0
  {
  }

  /** The other menu rows take the normal height exactly for Pro users. */
  lemma MenuRowHeight(proStatus: bool, advancedMode: bool, row: int, normalHeight: real)
    requires row != DnsFilteringRow || advancedMode
    ensures HeightForRowAt(proStatus, advancedMode, IndexPath(MenuSection, row), normalHeight)
            == (if proStatus then normalHeight else 0.0)
  {
  }

  /** The title's state row shows only for Pro users; every row outside the
      menu and the offer, other than that one, keeps the normal height. */
  lemma TitleAndOtherRowHeights(proStatus: bool, advancedMode: bool, path: IndexPath, normalHeight: real)
    requires path.section != MenuSection && path.section != GetProSection
    ensures path.section == TitleSection && path.row == TitleStateCell ==>
              HeightForRowAt(proStatus, advancedMode, path, normalHeight) == (if proStatus then normalHeight else 0.0)
    ensures !(path.section == TitleSection && path.row == TitleStateCell) ==>
              HeightForRowAt(proStatus, advancedMode, path, normalHeight) == normalHeight
  {
  }

  /** A user without Pro sees the offer and the title's description, and no
      menu row and no state row. */
  lemma NonProLayout(advancedMode: bool, row: int)
    ensures RowShown(false, advancedMode, IndexPath(GetProSection, row))
    ensures RowShown(false, advancedMode, IndexPath(TitleSection, TitleDescriptionCell))
    ensures !RowShown(false, advancedMode, IndexPath(TitleSection, TitleStateCell))
    ensures !RowShown(false, advancedMode, IndexPath(MenuSection, row))
  {
  }

  // ---------------------------------------------------------------------
  // Trial-period title of the "get Pro" offer
  // ---------------------------------------------------------------------

  datatype PeriodUnit = Day | Week | Month | Year
  datatype TrialPeriod = TrialPeriod(unit: PeriodUnit, numberOfUnits: int)
  datatype Product = Product(trialPeriod: Option<TrialPeriod>)

  /** A title before localisation: the key of its format string and the number
      substituted into it. */
  datatype TitleFormat = TitleFormat(key: string, argument: int)

  const DaysKey := "getPro_full_access_days"
  const WeeksKey := "getPro_full_access_weeks"
  const MonthsKey := "getPro_full_access_months"
  const YearsKey := "getPro_full_access_years"

  /** The period a title reads as, from its key and its number. */
  function TitlePeriod(t: TitleFormat): (p: Option<TrialPeriod>)
    ensures p.Some? ==> p.value.numberOfUnits == t.argument
    ensures p.Some? ==> t.key == (match p.value.unit
                                  case Day => DaysKey
                                  case Week => WeeksKey
                                  case Month => MonthsKey
                                  case Year => YearsKey)
    ensures p.None? <==> t.key !in {DaysKey, WeeksKey, MonthsKey, YearsKey}
  {
    if t.key == DaysKey then Some(TrialPeriod(Day, t.argument))
    else if t.key == WeeksKey then Some(TrialPeriod(Week, t.argument))
    else if t.key == MonthsKey then Some(TrialPeriod(Month, t.argument))
    else if t.key == YearsKey then Some(TrialPeriod(Year, t.argument))
    else None
  }

  /** The title names the product's trial period, except that a one-week trial
      reads as seven days; a product without a trial, or no product, is taken
      to have a one-week trial. */
  function GetTitleString(product: Option<Product>): (t: TitleFormat)
    ensures product.None? || product.value.trialPeriod.None? ==> t == TitleFormat(DaysKey, 7)
    ensures product.Some? && product.value.trialPeriod.Some? ==>
              var p := product.value.trialPeriod.value;
              TitlePeriod(t) == Some(if p == TrialPeriod(Week, 1) then TrialPeriod(Day, 7) else p)
  {
    var trial := match product
                 case Some(p) => p.trialPeriod
                 case None => None;
    var period := if trial.Some? then trial.value.unit else Week;
    var numberOfUnits := if trial.Some? then trial.value.numberOfUnits else 1;
    match period
    case Day => TitleFormat(DaysKey, numberOfUnits)
    case Week =>
      if numberOfUnits == 1 then TitleFormat(DaysKey, 7)
      else TitleFormat(WeeksKey, numberOfUnits)
    case Month => TitleFormat(MonthsKey, numberOfUnits)
    case Year => TitleFormat(YearsKey, numberOfUnits)
  }

  /** The weeks key is used exactly for trials of a number of weeks other than one. */
  lemma WeeksKeyOnlyForSeveralWeeks(product: Option<Product>)
    ensures GetTitleString(product).key == WeeksKey <==>
              product.Some? && product.value.trialPeriod.Some?
              && product.value.trialPeriod.value.unit == Week
              && product.value.trialPeriod.value.numberOfUnits != 1
  {
  }

  // ---------------------------------------------------------------------
  // Widgets that mirror the protection state
  // ---------------------------------------------------------------------

  const OnStateKey := "on_state"
  const OffStateKey := "off_state"

  /** The localisation key of the protection-state label. */
  function StateKey(enabled: bool): (k: string)
    ensures k == OnStateKey <==> enabled
    ensures k == OffStateKey <==> !enabled
  {
    if enabled then OnStateKey else OffStateKey
  }

  /** The protection icon is green while protection is on and the light-grey
      text colour while it is off. */
  function IconTint(enabled: bool): (c: Color)
    ensures c == Hex("67b279") <==> enabled
    ensures !enabled ==> c == Hex("888888") && c == LightGrayTextColor(false)
  {
    if enabled then Hex("67b279") else Hex("888888")
  }

  /** A label whose text is the localisation key it shows. */
  class TextLabel {
    var text: string
  }

  class IconView {
    var tintColor: Option<Color>
  }

  class DnsSettingsController {
    const enabledSwitch: Switch
    const systemProtectionStateLabel: TextLabel
    const systemIcon: IconView
    const networkSettingsSeparator: View

    /** A protection state requested from the home-screen widget, not yet applied. */
    var stateFromWidget: Option<bool>

    constructor (enabledSwitch: Switch, systemProtectionStateLabel: TextLabel,
                 systemIcon: IconView, networkSettingsSeparator: View)
      ensures this.enabledSwitch == enabledSwitch
      ensures this.systemProtectionStateLabel == systemProtectionStateLabel
      ensures this.systemIcon == systemIcon
      ensures this.networkSettingsSeparator == networkSettingsSeparator
      ensures stateFromWidget == None
    {
      this.enabledSwitch := enabledSwitch;
      this.systemProtectionStateLabel := systemProtectionStateLabel;
      this.systemIcon := systemIcon;
      this.networkSettingsSeparator := networkSettingsSeparator;
      stateFromWidget := None;
    }

    /** Whether laying out this row also sets the network-settings separator. */
    static predicate SetsSeparator(state: ScreenState, path: IndexPath)
    {
      path.section == MenuSection && path.row == DnsFilteringRow && state.proStatus
    }

    /** Prepares the static cell at `path`: hides it as `RowShown` says, dims
        and disables the menu while protection is off, mirrors advanced mode on
        the separator, and applies the theme's cell style. */
    method TableViewCellForRowAt(state: ScreenState, path: IndexPath, cell: TableViewCell)
      modifies cell`isHidden, cell`isUserInteractionEnabled, cell`selectedBackgroundView,
               cell`backgroundColor, cell.contentView`alpha, cell.contentView`backgroundColor,
               networkSettingsSeparator`isHidden
      ensures SetsHidden(path) ==> cell.isHidden == !RowShown(state.proStatus, state.advancedMode, path)
      ensures !SetsHidden(path) ==> cell.isHidden == old(cell.isHidden)
      ensures path.section == MenuSection ==>
                cell.contentView.alpha == MenuAlpha(state.systemProtectionEnabled)
                && cell.isUserInteractionEnabled == state.systemProtectionEnabled
      ensures path.section != MenuSection ==>
                cell.contentView.alpha == old(cell.contentView.alpha)
                && cell.isUserInteractionEnabled == old(cell.isUserInteractionEnabled)
      ensures SetsSeparator(state, path) ==> networkSettingsSeparator.isHidden == !state.advancedMode
      ensures !SetsSeparator(state, path) ==> networkSettingsSeparator.isHidden == old(networkSettingsSeparator.isHidden)
      ensures cell.selectedBackgroundView != null && fresh(cell.selectedBackgroundView)
      ensures cell.selectedBackgroundView.backgroundColor == Some(SelectedCellColor(state.darkTheme))
      ensures cell.contentView.backgroundColor == Some(Clear) && cell.backgroundColor == Some(Clear)
    {
      var proStatus := state.proStatus;
      if path.section == TitleSection {
        if path.row == TitleStateCell {
          cell.isHidden := !proStatus;
        }
      }

      if path.section == GetProSection {
        cell.isHidden := proStatus;
      }

      if path.section == MenuSection {
        cell.isHidden := !proStatus;
        cell.contentView.alpha := if state.systemProtectionEnabled then 1.0 else 0.5;
        cell.isUserInteractionEnabled := state.systemProtectionEnabled;

        if path.row == DnsFilteringRow && proStatus {
          cell.isHidden := !state.advancedMode;
          networkSettingsSeparator.isHidden := !state.advancedMode;
        }
      }

      SetupTableCell(state.darkTheme, cell);
    }

    /** Shows the protection state on the switch, the state label and the icon. */
    method UpdateVpnInfo(systemProtectionEnabled: bool)
      modifies enabledSwitch`isOn, systemProtectionStateLabel`text, systemIcon`tintColor
      ensures enabledSwitch.isOn == systemProtectionEnabled
      ensures systemProtectionStateLabel.text == StateKey(systemProtectionEnabled)
      ensures systemIcon.tintColor == Some(IconTint(systemProtectionEnabled))
    {
      var enabled := systemProtectionEnabled;
      enabledSwitch.isOn := enabled;
      systemProtectionStateLabel.text := if enabled then OnStateKey else OffStateKey;
      systemIcon.tintColor := Some(if enabled then Hex("67b279") else Hex("888888"));
    }

    /** The screen appearing, with its deferred work done as one step: a state
        requested from the widget is handed back to be applied by the protection
        service and then forgotten, and the widgets show `systemProtectionEnabled`,
        the state the protection service reports right after the request is
        made. */
    method ViewWillAppear(systemProtectionEnabled: bool) returns (switchRequest: Option<bool>)
      modifies this`stateFromWidget, enabledSwitch`isOn, systemProtectionStateLabel`text, systemIcon`tintColor
      ensures switchRequest == old(stateFromWidget)
      ensures stateFromWidget == None
      ensures enabledSwitch.isOn == systemProtectionEnabled
      ensures systemProtectionStateLabel.text == StateKey(systemProtectionEnabled)
      ensures systemIcon.tintColor == Some(IconTint(systemProtectionEnabled))
    {
      switchRequest := stateFromWidget;
      if switchRequest.Some? {
        stateFromWidget := None;
      }
      UpdateVpnInfo(systemProtectionEnabled);
    }
  }

  /** On every row it writes, the cell set-up hides a row exactly when the
      height rule collapses it. */
  lemma HiddenExactlyWhenCollapsed(state: ScreenState, path: IndexPath, normalHeight: real)
    requires normalHeight != 0.0
    ensures HeightForRowAt(state.proStatus, state.advancedMode, path, normalHeight) == 0.0
            <==> !RowShown(state.proStatus, state.advancedMode, path)
  {
  }
}

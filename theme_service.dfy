/**
 * The dark/light theme service: a fixed palette chosen by one flag, the
 * current value of the configuration's `darkTheme`, and the `setup...`
 * operations that write colours, styles and images onto the UI element they
 * are given. The service reads the flag afresh on every call, so here every
 * getter and every setup operation takes it as the parameter `dark`.
 */
module Theme {
  import opened Optional

  /** A colour as the service names it: a hex literal (the six digits, without
      the leading '#') or one of the platform's named colours. */
  datatype Color = Hex(digits: string) | White | Black | Clear | DarkGray

  // ---------------------------------------------------------------------
  // The palette
  // ---------------------------------------------------------------------

  function BackgroundColor(dark: bool): (c: Color)
    ensures c == Black <==> dark
    ensures c == White <==> !dark
  {
    if dark then Black else White
  }

  /** Popups sit on the page colour in light mode and on a near-black in dark mode. */
  function PopupBackgroundColor(dark: bool): (c: Color)
    ensures !dark ==> c == White && c == BackgroundColor(dark)
    ensures dark ==> c == Hex("131313") && c != BackgroundColor(dark)
  {
    if dark then Hex("131313") else White
  }

  /** The bottom bar shares the popup colour in dark mode only. */
  function BottomBarBackgroundColor(dark: bool): (c: Color)
    ensures dark ==> c == PopupBackgroundColor(dark)
    ensures !dark ==> c == Hex("F3F3F3") && c != PopupBackgroundColor(dark)
  {
    if dark then Hex("131313") else Hex("F3F3F3")
  }

  function BlackTextColor(dark: bool): (c: Color)
    ensures c == White <==> dark
    ensures !dark ==> c == Hex("222222")
  {
    if dark then White else Hex("222222")
  }

  function GrayTextColor(dark: bool): (c: Color)
    ensures c == White <==> dark
    ensures !dark ==> c == Hex("4A4A4A")
  {
    if dark then White else Hex("4A4A4A")
  }

  function LightGrayTextColor(dark: bool): (c: Color)
    ensures c == White <==> dark
    ensures !dark ==> c == Hex("888888")
  {
    if dark then White else Hex("888888")
  }

  function PlaceholderTextColor(dark: bool): (c: Color)
    ensures c.Hex?
    ensures c == Hex("777777") <==> dark
    ensures c == Hex("DDDDDD") <==> !dark
  {
    if dark then Hex("777777") else Hex("DDDDDD")
  }

  /** `separatorColor` in ThemeService.swift spells these two literals without
      '#'; the digits are the same as for every other hex colour here. */
  function SeparatorColor(dark: bool): (c: Color)
    ensures c.Hex?
    ensures c == Hex("4D4D4D") <==> dark
    ensures c == Hex("D8D8D8") <==> !dark
  {
    if dark then Hex("4D4D4D") else Hex("D8D8D8")
  }

  /** A selected cell is a dark green in dark mode and the bottom-bar grey in light mode. */
  function SelectedCellColor(dark: bool): (c: Color)
    ensures dark ==> c == Hex("0E1911")
    ensures !dark ==> c == BottomBarBackgroundColor(dark)
    ensures c != BackgroundColor(dark) && c != PopupBackgroundColor(dark)
  {
    if dark then Hex("0E1911") else Hex("F3F3F3")
  }

  /** All three text colours collapse to white in dark mode and are three
      different greys in light mode. */
  lemma TextColorsByMode(dark: bool)
    ensures dark ==> BlackTextColor(dark) == GrayTextColor(dark) == LightGrayTextColor(dark) == White
    ensures !dark ==> BlackTextColor(dark) != GrayTextColor(dark)
                      && GrayTextColor(dark) != LightGrayTextColor(dark)
                      && BlackTextColor(dark) != LightGrayTextColor(dark)
  {
  }

  /** The text colour of text fields and bar button items: the platform's dark
      grey in light mode, white in dark mode. */
  function ControlTextColor(dark: bool): (c: Color)
    ensures c == White <==> dark
    ensures c == DarkGray <==> !dark
    ensures c == BlackTextColor(dark) <==> dark
  {
    if dark then White else DarkGray
  }

  // ---------------------------------------------------------------------
  // Styles that are not colours
  // ---------------------------------------------------------------------

  datatype StatusBarStyle = DefaultStatusBar | LightContent
  datatype BarStyle = DefaultBar | BlackBar

  function StatusbarStyle(dark: bool): (s: StatusBarStyle)
    ensures s == LightContent <==> dark
  {
    if dark then LightContent else DefaultStatusBar
  }

  function NavigationBarTint(dark: bool): (c: Color)
    ensures c == Clear <==> dark
    ensures c == White <==> !dark
  {
    if dark then Clear else White
  }

  function NavigationBarStyle(dark: bool): (s: BarStyle)
    ensures s == BlackBar <==> dark
    ensures s == BlackBar <==> StatusbarStyle(dark) == LightContent
  {
    if dark then BlackBar else DefaultBar
  }

  /** A switch is tinted with the dark separator grey in dark mode and keeps the
      platform's default (no tint) in light mode. */
  function SwitchTint(dark: bool): (t: Option<Color>)
    ensures t.None? <==> !dark
    ensures dark ==> t == Some(SeparatorColor(dark)) && t == Some(Hex("4D4D4D"))
  {
    if dark then Some(Hex("4D4D4D")) else None
  }

  // ---------------------------------------------------------------------
  // Per-element colour rules
  // ---------------------------------------------------------------------

  /** Tag buttons: a dark title on a light chip in dark mode, a light title on a
      dark chip in light mode. The dark-mode title is the light-mode chip colour,
      and both title colours are the separator colour of their mode. */
  function TagButtonBackground(dark: bool): (c: Color)
    ensures dark ==> c == Hex("F3F3F3") && c == BottomBarBackgroundColor(!dark)
    ensures !dark ==> c == Hex("4D4D4D") && c == SeparatorColor(!dark)
  {
    if dark then Hex("F3F3F3") else Hex("4D4D4D")
  }

  function TagButtonTitle(dark: bool): (c: Color)
    ensures c == SeparatorColor(dark)
    ensures c != TagButtonBackground(dark)
    ensures dark ==> c == TagButtonBackground(!dark)
  {
    if dark then Hex("4D4D4D") else Hex("D8D8D8")
  }

  /** Only the dark-mode title takes the light-mode chip colour: the light-mode
      title is not the dark-mode chip colour, so the two modes are not a full swap. */
  lemma TagButtonNotFullySwapped()
    ensures TagButtonTitle(true) == TagButtonBackground(false)
    ensures TagButtonTitle(false) != TagButtonBackground(true)
  {
  }

  /** The kinds of themable label, from its two flags; `greyText` wins. */
  datatype LabelKind = GreyLabel | LightGreyLabel | NormalLabel

  function KindOf(greyText: bool, lightGreyText: bool): (k: LabelKind)
    ensures k == GreyLabel <==> greyText
    ensures k == LightGreyLabel <==> !greyText && lightGreyText
  {
    if greyText then GreyLabel else if lightGreyText then LightGreyLabel else NormalLabel
  }

  /** The text colour `setupLabel` gives a label with these flags. */
  function LabelTextColor(dark: bool, greyText: bool, lightGreyText: bool): (c: Color)
    ensures greyText ==> c == GrayTextColor(dark)
    ensures !greyText && lightGreyText ==> c == LightGrayTextColor(dark)
    ensures !greyText && !lightGreyText ==> c == BlackTextColor(dark)
    ensures dark ==> c == White
  {
    if greyText then GrayTextColor(dark)
    else if lightGreyText then LightGrayTextColor(dark)
    else BlackTextColor(dark)
  }

  /** In light mode the colour tells the three kinds of label apart; in dark
      mode every label is white. */
  lemma LabelColorDeterminesKind(dark: bool, g1: bool, l1: bool, g2: bool, l2: bool)
    ensures !dark ==> (LabelTextColor(dark, g1, l1) == LabelTextColor(dark, g2, l2)
                       <==> KindOf(g1, l1) == KindOf(g2, l2))
    ensures dark ==> LabelTextColor(dark, g1, l1) == LabelTextColor(dark, g2, l2)
  {
  }

  /** The text colour `setupPopupLabel` gives a label; only `greyText` matters.
      The light-grey #888888 is used exactly for grey labels in dark mode and
      plain labels in light mode. */
  function PopupLabelTextColor(dark: bool, greyText: bool): (c: Color)
    ensures c.Hex?
    ensures c == LightGrayTextColor(false) <==> greyText == dark
    ensures dark && !greyText ==> c == Hex("F3F3F3")
    ensures !dark && greyText ==> c == Hex("494949")
  {
    if dark then (if greyText then Hex("888888") else Hex("F3F3F3"))
    else (if greyText then Hex("494949") else Hex("888888"))
  }

  /** Grey and plain popup labels always differ, and neither takes the
      black-text colour of its mode. */
  lemma PopupLabelColorsDistinct(dark: bool)
    ensures PopupLabelTextColor(dark, true) != PopupLabelTextColor(dark, false)
    ensures PopupLabelTextColor(dark, true) != BlackTextColor(dark)
    ensures PopupLabelTextColor(dark, false) != BlackTextColor(dark)
  {
  }

  /** The title colour of a popup button: the light-grey text colour, in both
      modes alike. */
  function PopupButtonTitleColor(dark: bool): (c: Color)
    ensures c == LightGrayTextColor(dark)
  {
    if dark then LightGrayTextColor(dark) else LightGrayTextColor(dark)
  }

  /** The search bar's text and tint colour: an off-white in dark mode, the
      black-text colour in light mode. */
  function SearchTextColor(dark: bool): (c: Color)
    ensures dark ==> c == Hex("F3F3F3") && c != BlackTextColor(dark)
    ensures !dark ==> c == BlackTextColor(dark)
  {
    if dark then Hex("F3F3F3") else Hex("222222")
  }

  /** The search field's background is the bottom-bar colour in both modes. */
  function SearchFieldBackground(dark: bool): (c: Color)
    ensures c == BottomBarBackgroundColor(dark)
    ensures dark <==> c == PopupBackgroundColor(dark)
  {
    if dark then Hex("131313") else Hex("F3F3F3")
  }

  // ---------------------------------------------------------------------
  // Batch setups, as functions on the labels' flags
  // ---------------------------------------------------------------------

  /** The flags of one themable label. */
  datatype LabelFlags = LabelFlags(greyText: bool, lightGreyText: bool)

  /** What `setupLabels` leaves in each label's `textColor`, in array order. */
  function LabelsTextColors(dark: bool, flags: seq<LabelFlags>): (r: seq<Color>)
    ensures |r| == |flags|
    ensures forall i :: 0 <= i < |flags| ==>
              r[i] == LabelTextColor(dark, flags[i].greyText, flags[i].lightGreyText)
  {
    if flags == [] then []
    else [LabelTextColor(dark, flags[0].greyText, flags[0].lightGreyText)]
         + LabelsTextColors(dark, flags[1..])
  }

  /** What `setupPopupLabels` leaves in each label's `textColor`, in array order. */
  function PopupLabelsTextColors(dark: bool, flags: seq<LabelFlags>): (r: seq<Color>)
    ensures |r| == |flags|
    ensures forall i :: 0 <= i < |flags| ==> r[i] == PopupLabelTextColor(dark, flags[i].greyText)
  {
    if flags == [] then []
    else [PopupLabelTextColor(dark, flags[0].greyText)] + PopupLabelsTextColors(dark, flags[1..])
  }

  // ---------------------------------------------------------------------
  // The UI elements the service styles
  // ---------------------------------------------------------------------

  datatype Image = Image(name: string)

  /** A plain view: only the properties this core writes. */
  class View {
    var backgroundColor: Option<Color>
    var alpha: real
    var isHidden: bool

    /** `UIView()`: no background, opaque, visible. */
    constructor ()
      ensures backgroundColor == None && alpha == 1.0 && !isHidden
    {
      backgroundColor := None;
      alpha := 1.0;
      isHidden := false;
    }
  }

  class ThemableLabel {
    var textColor: Color
    var greyText: bool
    var lightGreyText: bool

    function Flags(): (f: LabelFlags)
      reads this
      ensures f.greyText == greyText && f.lightGreyText == lightGreyText
    {
      LabelFlags(greyText, lightGreyText)
    }
  }

  class ThemeableImageView {
    var image: Option<Image>
    var lightThemeImage: Option<Image>
    var darkThemeImage: Option<Image>
  }

  class RoundRectButton {
    var customBackgroundColor: Option<Color>
    var customHighlightedBackgroundColor: Option<Color>
    /** The title colour for the normal control state. */
    var normalTitleColor: Option<Color>
  }

  class NavigationBar {
    var barTintColor: Option<Color>
    var barStyle: BarStyle
  }

  class TextField {
    var textColor: Option<Color>
    var backgroundColor: Option<Color>
  }

  class SearchBar {
    /** The embedded text field, when the search bar has one. */
    var searchField: TextField?
    var tintColor: Option<Color>
    var barTintColor: Option<Color>
  }

  class TableView {
    var separatorColor: Option<Color>
    var tableFooterView: View?
  }

  class TableViewCell {
    var selectedBackgroundView: View?
    const contentView: View
    var backgroundColor: Option<Color>
    var isHidden: bool
    var isUserInteractionEnabled: bool

    /** A cell always has a content view, so the class needs a constructor. */
    constructor (contentView: View)
      ensures this.contentView == contentView && selectedBackgroundView == null
      ensures backgroundColor == None && !isHidden && isUserInteractionEnabled
    {
      this.contentView := contentView;
      selectedBackgroundView := null;
      backgroundColor := None;
      isHidden := false;
      isUserInteractionEnabled := true;
    }
  }

  class BarButtonItem {
    var tintColor: Option<Color>
  }

  class Switch {
    var tintColor: Option<Color>
    var isOn: bool
  }

  /** The labels' flags, in array order. */
  ghost function FlagsOf(labels: seq<ThemableLabel>): (r: seq<LabelFlags>)
    reads labels
    ensures |r| == |labels|
    ensures forall i :: 0 <= i < |labels| ==> r[i] == labels[i].Flags()
  {
    seq(|labels|, i requires 0 <= i < |labels| reads labels => labels[i].Flags())
  }

  /** The labels' text colours, in array order. */
  ghost function TextColorsOf(labels: seq<ThemableLabel>): (r: seq<Color>)
    reads labels
    ensures |r| == |labels|
    ensures forall i :: 0 <= i < |labels| ==> r[i] == labels[i].textColor
  {
    seq(|labels|, i requires 0 <= i < |labels| reads labels => labels[i].textColor)
  }

  // ---------------------------------------------------------------------
  // The setup operations
  // ---------------------------------------------------------------------

  method SetupTagButton(dark: bool, button: RoundRectButton)
    modifies button`customBackgroundColor, button`normalTitleColor
    ensures button.customBackgroundColor == Some(TagButtonBackground(dark))
    ensures button.normalTitleColor == Some(TagButtonTitle(dark))
  {
    button.customBackgroundColor := Some(if dark then Hex("F3F3F3") else Hex("4D4D4D"));
    button.normalTitleColor := Some(if dark then Hex("4D4D4D") else Hex("D8D8D8"));
  }

  method SetupImage(dark: bool, imageView: ThemeableImageView)
    modifies imageView`image
    ensures dark ==> imageView.image == imageView.darkThemeImage
    ensures !dark ==> imageView.image == imageView.lightThemeImage
  {
    imageView.image := if dark then imageView.darkThemeImage else imageView.lightThemeImage;
  }

  method SetupLabel(dark: bool, textLabel: ThemableLabel)
    modifies textLabel`textColor
    ensures textLabel.textColor == LabelTextColor(dark, textLabel.greyText, textLabel.lightGreyText)
  {
    textLabel.textColor := if textLabel.greyText then GrayTextColor(dark)
                       else if textLabel.lightGreyText then LightGrayTextColor(dark)
                       else BlackTextColor(dark);
  }

  /** Every label ends up as `SetupLabel` alone would leave it; a label listed
      twice is simply styled twice. */
  method SetupLabels(dark: bool, labels: seq<ThemableLabel>)
    modifies labels
    ensures FlagsOf(labels) == old(FlagsOf(labels))
    ensures TextColorsOf(labels) == LabelsTextColors(dark, FlagsOf(labels))
  {
    for i := 0 to |labels|
      invariant forall l :: l in labels ==> l.greyText == old(l.greyText) && l.lightGreyText == old(l.lightGreyText)
      invariant forall j :: 0 <= j < i ==>
                  labels[j].textColor == LabelTextColor(dark, labels[j].greyText, labels[j].lightGreyText)
    {
      SetupLabel(dark, labels[i]);
    }
  }

  method SetupPopupLabel(dark: bool, textLabel: ThemableLabel)
    modifies textLabel`textColor
    ensures textLabel.textColor == PopupLabelTextColor(dark, textLabel.greyText)
  {
    if dark {
      textLabel.textColor := if textLabel.greyText then Hex("888888") else Hex("F3F3F3");
    } else {
      textLabel.textColor := if textLabel.greyText then Hex("494949") else Hex("888888");
    }
  }

  method SetupPopupLabels(dark: bool, labels: seq<ThemableLabel>)
    modifies labels
    ensures FlagsOf(labels) == old(FlagsOf(labels))
    ensures TextColorsOf(labels) == PopupLabelsTextColors(dark, FlagsOf(labels))
  {
    for i := 0 to |labels|
      invariant forall l :: l in labels ==> l.greyText == old(l.greyText) && l.lightGreyText == old(l.lightGreyText)
      invariant forall j :: 0 <= j < i ==> labels[j].textColor == PopupLabelTextColor(dark, labels[j].greyText)
    {
      SetupPopupLabel(dark, labels[i]);
    }
  }

  method SetupPopupButton(dark: bool, button: RoundRectButton)
    modifies button`normalTitleColor, button`customHighlightedBackgroundColor
    ensures button.normalTitleColor == Some(PopupButtonTitleColor(dark))
    ensures button.customHighlightedBackgroundColor == Some(SelectedCellColor(dark))
  {
    var color := if dark then LightGrayTextColor(dark) else LightGrayTextColor(dark);
    button.normalTitleColor := Some(color);
    button.customHighlightedBackgroundColor := Some(SelectedCellColor(dark));
  }

  /** Every button ends up as `SetupPopupButton` alone would leave it; the
      buttons' normal background is not touched. */
  method SetupPopupButtons(dark: bool, buttons: seq<RoundRectButton>)
    modifies buttons
    ensures forall b :: b in buttons ==>
              b.normalTitleColor == Some(PopupButtonTitleColor(dark))
              && b.customHighlightedBackgroundColor == Some(SelectedCellColor(dark))
              && b.customBackgroundColor == old(b.customBackgroundColor)
  {
    for i := 0 to |buttons|
      invariant forall b :: b in buttons ==> b.customBackgroundColor == old(b.customBackgroundColor)
      invariant forall j :: 0 <= j < i ==>
                  buttons[j].normalTitleColor == Some(PopupButtonTitleColor(dark))
                  && buttons[j].customHighlightedBackgroundColor == Some(SelectedCellColor(dark))
    {
      SetupPopupButton(dark, buttons[i]);
    }
  }

  /** A missing navigation bar is ignored. */
  method SetupNavigationBar(dark: bool, navBar: NavigationBar?)
    modifies navBar
    ensures navBar != null ==> navBar.barTintColor == Some(NavigationBarTint(dark))
                               && navBar.barStyle == NavigationBarStyle(dark)
  {
    if navBar == null {
      return;
    }
    navBar.barTintColor := Some(if dark then Clear else White);
    navBar.barStyle := if dark then BlackBar else DefaultBar;
  }

  /** The search bar's embedded text field is styled only when there is one. */
  method SetupSearchBar(dark: bool, searchBar: SearchBar)
    modifies searchBar`tintColor, searchBar`barTintColor, searchBar.searchField
    ensures searchBar.searchField == old(searchBar.searchField)
    ensures searchBar.tintColor == Some(SearchTextColor(dark))
    ensures searchBar.barTintColor == Some(Clear)
    ensures searchBar.searchField != null ==>
              searchBar.searchField.textColor == Some(SearchTextColor(dark))
              && searchBar.searchField.backgroundColor == Some(SearchFieldBackground(dark))
  {
    var textField := searchBar.searchField;
    if textField != null {
      textField.textColor := Some(if dark then Hex("F3F3F3") else Hex("222222"));
    }
    searchBar.tintColor := Some(if dark then Hex("F3F3F3") else Hex("222222"));
    searchBar.barTintColor := Some(Clear);
    if textField != null {
      textField.backgroundColor := Some(if dark then Hex("131313") else Hex("F3F3F3"));
    }
  }

  method SetupTextField(dark: bool, textField: TextField)
    modifies textField`textColor
    ensures textField.textColor == Some(ControlTextColor(dark))
  {
    textField.textColor := Some(if dark then White else DarkGray);
  }

  /** The footer, when the table has one, takes the page background. */
  method SetupTable(dark: bool, table: TableView)
    modifies table`separatorColor, table.tableFooterView
    ensures table.separatorColor == Some(SeparatorColor(dark))
    ensures table.tableFooterView == old(table.tableFooterView)
    ensures table.tableFooterView != null ==>
              table.tableFooterView.backgroundColor == Some(BackgroundColor(dark))
              && table.tableFooterView.alpha == old(table.tableFooterView.alpha)
              && table.tableFooterView.isHidden == old(table.tableFooterView.isHidden)
  {
    table.separatorColor := Some(SeparatorColor(dark));
    var footer := table.tableFooterView;
    if footer != null {
      footer.backgroundColor := Some(BackgroundColor(dark));
    }
  }

  /** A fresh view carrying the selected-cell colour becomes the cell's selected
      background; the cell and its content view become transparent. */
  method SetupTableCell(dark: bool, cell: TableViewCell)
    modifies cell`selectedBackgroundView, cell`backgroundColor, cell.contentView`backgroundColor
    ensures cell.selectedBackgroundView != null && fresh(cell.selectedBackgroundView)
    ensures cell.selectedBackgroundView.backgroundColor == Some(SelectedCellColor(dark))
    ensures cell.selectedBackgroundView.alpha == 1.0 && !cell.selectedBackgroundView.isHidden
    ensures cell.contentView.backgroundColor == Some(Clear)
    ensures cell.backgroundColor == Some(Clear)
  {
    var bgColorView := new View();
    bgColorView.backgroundColor := Some(SelectedCellColor(dark));
    cell.selectedBackgroundView := bgColorView;
    cell.contentView.backgroundColor := Some(Clear);
    cell.backgroundColor := Some(Clear);
  }

  method SetupBarButtonItem(dark: bool, button: BarButtonItem)
    modifies button`tintColor
    ensures button.tintColor == Some(ControlTextColor(dark))
  {
    button.tintColor := Some(if dark then White else DarkGray);
  }

  method SetupSwitch(dark: bool, switchControl: Switch)
    modifies switchControl`tintColor
    ensures switchControl.tintColor == SwitchTint(dark)
  {
    switchControl.tintColor := if dark then Some(Hex("4D4D4D")) else None;
  }
}

/** The single-document screen (`SingleInvoiceVC` with its `BottomView`, `Selectors`
    and `Helpers` extensions) as a state machine over the views it adds and removes.
    The screen is either in custom mode (the page at full scale with the bottom
    customization panel: colour swatches, font family, size variant) or in final mode
    (the page scaled down with Share/Print/Edit, the paid prompt or paid row, and a
    Send button). Taps arrive as events; a tap on a view that is not on screen, or
    that is hidden, does nothing. */
module DocumentView {
  import opened Basics
  import opened Numbers
  import opened Models
  import opened Valuation
  import opened Fonts

  // ---------------------------------------------------------------- dates

  /** DateFormatter's `yyyy` prints the year of the era, counting years before 1 AD backwards from 1. */
  function YearOfEra(year: int): nat
  {
    if year >= 1 then year else 1 - year
  }

  /** `onlyDate`: `yyyy-MM-dd`, and the empty string when there is no date. */
  function OnlyDate(d: Option<Date>): (r: string)
    ensures d.None? <==> r == []
    ensures d.Some? ==> |r| >= 10
  {
    match d
    case None => []
    case Some(v) =>
      PadLeft(FormatNat(YearOfEra(v.year)), 4) + "-" + PadLeft(FormatNat(v.month), 2) + "-" + PadLeft(FormatNat(v.day), 2)
  }

  /** Reads a `yyyy-MM-dd` string back into calendar components. */
  function ParseOnlyDate(s: string): (r: Option<Date>)
    ensures r.Some? ==> |s| >= 10 && s[|s| - 3] == '-' && s[|s| - 6] == '-'
  {
    if |s| >= 10 && s[|s| - 3] == '-' && s[|s| - 6] == '-' then
      var y, m, d := s[..|s| - 6], s[|s| - 5..|s| - 3], s[|s| - 2..];
      if AllDigits(y) && AllDigits(m) && AllDigits(d) then Some(Date(DigitsValue(y), DigitsValue(m), DigitsValue(d)))
      else None
    else None
  }

  /** Where the three fields of `year-MM-dd` sit in the joined string. */
  lemma DateFieldsAt(y: string, m: string, d: string)
    requires |m| == 2 && |d| == 2
    ensures var s := y + "-" + m + "-" + d;
      |s| == |y| + 6 && s[|s| - 3] == '-' && s[|s| - 6] == '-'
      && s[..|s| - 6] == y && s[|s| - 5..|s| - 3] == m && s[|s| - 2..] == d
  {
  }

  /** Every date of the common era with two-digit month and day reads back from its rendering. */
  lemma OnlyDateRoundTrip(d: Date)
    requires d.year >= 1 && d.month < 100 && d.day < 100
    ensures ParseOnlyDate(OnlyDate(Some(d))) == Some(d)
  {
    var y := PadLeft(FormatNat(d.year), 4);
    var m := PadLeft(FormatNat(d.month), 2);
    var dd := PadLeft(FormatNat(d.day), 2);
    FormatNatLength(d.month, 2);
    FormatNatLength(d.day, 2);
    PadLeftValue(FormatNat(d.year), 4);
    PadLeftValue(FormatNat(d.month), 2);
    PadLeftValue(FormatNat(d.day), 2);
    assert YearOfEra(d.year) == d.year;
    var s := OnlyDate(Some(d));
    assert s == y + "-" + m + "-" + dd;
    DateFieldsAt(y, m, dd);
    assert ParseOnlyDate(s) == Some(Date(DigitsValue(y), DigitsValue(m), DigitsValue(dd)));
  }

  // ---------------------------------------------------------------- constants

  const WhiteAsset: string := "customWhiteAsset"
  const ColorsAsset: string := "customColorsAsset"

  /** The colour swatches of the panel, in display order. */
  const AssetNames: seq<string> := [WhiteAsset, "customBlueAsset", "customOrangeAsset", "customSeaAsset",
                                    "customPurpleAsset", "customGreenAsset", ColorsAsset]

  datatype Color =
    | Gray | CustomBlue | CustomOrange | CustomSea | CustomPurple | CustomGreen
    | Rgb(red: real, green: real, blue: real, alpha: real)
    | White(white: real, alpha: real)
    | Black

  /** The colour of each swatch, position by position; the first and last are never applied. */
  const ColorValues: seq<Color> := [Gray, CustomBlue, CustomOrange, CustomSea, CustomPurple, CustomGreen,
                                    Rgb(0.42, 0.42, 0.42, 1.0)]

  const FontNames: seq<string> := ["Normal", "Classic", "Round"]

  /** Point sizes of the two size buttons' captions. */
  const SizeOptions: seq<real> := [16.0, 24.0]

  /** Width over height of an A4 sheet, the page's aspect. */
  const A4AspectRatio: real := 210.0 / 297.0

  const CompactScale: real := 0.8
  const FullScale: real := 1.0

  /** The payment methods of the paid sheet, in display order. */
  const PayMethods: seq<string> := ["Cash", "Check", "Bank", "PayPal"]

  const FileNamePrefix: string := "Invoice-"
  const FileNameSuffix: string := ".pdf"

  // ---------------------------------------------------------------- page colours

  /** The three tinted elements of the page: the title text, the info frame border and the items header. */
  datatype Theme = Theme(title: Color, infoBorder: Color, itemsHeader: Color)

  /** `resetToDefaultColors`. */
  const DefaultTheme: Theme := Theme(Black, White(0.85, 1.0), White(0.96, 1.0))

  /** `changeColor`: one colour for all three elements. */
  function Tinted(c: Color): Theme
  {
    Theme(c, c, c)
  }

  /** The colours the page should show for a checked swatch. */
  function ThemeFor(selected: Option<string>): Theme
  {
    match selected
    case None => DefaultTheme
    case Some(a) =>
      if a == WhiteAsset then DefaultTheme
      else
        match IndexOf(AssetNames, a)
        case None => DefaultTheme
        case Some(i) => Tinted(ColorValues[i])
  }

  /** The swatches whose checkmark is visible. */
  function Checkmarks(selected: Option<string>): (r: set<string>)
    ensures forall a :: a in r <==> a in AssetNames && selected == Some(a)
  {
    set a | a in AssetNames && selected == Some(a)
  }

  /** The buttons drawn with a black border among `n` for a selection `k`. */
  function Highlight(n: int, k: int): (r: set<int>)
    ensures forall i :: i in r <==> 0 <= i < n && i == k
  {
    if 0 <= k < n then {k} else {}
  }

  // ---------------------------------------------------------------- subscription gating

  /** The tag a colour container gets when the panel is built: 1 marks a swatch behind the subscription. */
  function ContainerTag(asset: string, entitled: bool): int
  {
    if !entitled && asset != WhiteAsset then 1 else 0
  }

  predicate FontGated(i: int, entitled: bool)
    requires 0 <= i < |FontNames|
  {
    !entitled && (FontNames[i] == "Classic" || FontNames[i] == "Round")
  }

  predicate SizeGated(i: int, entitled: bool)
  {
    !entitled && i == LargeSizeIndex
  }

  /** Without a subscription every swatch but the white one, every family but the
      first and the large size carry the badge; with one, nothing does. */
  lemma GatedOptions(entitled: bool)
    ensures forall i :: 0 <= i < |AssetNames| ==> (ContainerTag(AssetNames[i], entitled) == 1 <==> !entitled && i != 0)
    ensures forall i :: 0 <= i < |FontNames| ==> (FontGated(i, entitled) <==> !entitled && i != 0)
    ensures forall i :: 0 <= i < |SizeOptions| ==> (SizeGated(i, entitled) <==> !entitled && i != 0)
  {
  }

  // ---------------------------------------------------------------- view state

  /** The bottom customization panel: whether it is hidden, and the subscription
      status it was built with (which fixes its badges). */
  datatype Panel = Panel(hidden: bool, entitled: bool)

  /** The final-mode summary. `paidPrompt` is the "Has invoice been paid?" row;
      without it the "Mark as Paid" row is shown instead. */
  datatype FinalView = FinalView(
    paidPrompt: bool,
    clientName: string,
    total: real,
    number: string,
    issued: string,
    due: string)

  /** The single-document screen. An optional view is `None` until it is built:
      `navButton` holds the nav button's title, `bottomDoneHidden` the bottom Done
      button's hidden flag, `panel` the customization panel. `finalView` is the summary
      shown in final mode; `paymentSheet` is whether the pay-method sheet is open. */
  datatype ViewState = ViewState(
    invoice: Invoice,
    entitled: bool,
    isCustom: bool,
    wasPaid: bool,
    selectedPayMethod: Option<string>,
    selectedColorAsset: Option<string>,
    theme: Theme,
    selectedFontIndex: int,
    selectedSizeIndex: int,
    labels: seq<Label>,
    originalSizes: seq<real>,
    title: Option<Label>,
    fonts: FontAvailability,
    pageScale: real,
    pageTop: real,
    navButton: Option<string>,
    bottomDoneHidden: Option<bool>,
    panel: Option<Panel>,
    sendButton: bool,
    finalView: Option<FinalView>,
    paymentSheet: bool,
    checkmarks: set<string>,
    fontHighlight: set<int>,
    sizeHighlight: set<int>)

  datatype Event =
    | TapNavDone
    | TapBottomDone
    | TapEdit
    | TapPaidPrompt
    | ChoosePayMethod(index: int)
    | CancelPayment
    | TapColor(asset: string)
    | TapFont(index: int)
    | TapSize(index: int)
    | TapSend
    | TapShare
    | TapPrint

  /** What a tap hands to the outside world. */
  datatype Effect =
    | NoEffect
    | PresentSubscription
    | PresentColorPicker
    | ShareFile(name: string)
    | PrintJob(name: string)

  function NavTitle(isCustom: bool): string
  {
    if isCustom then "Done" else "Custom"
  }

  /** `scaleA4View`: the page's top offset for a scale. */
  function TopOffset(scale: real): real
  {
    if scale == 0.8 then 55.0 else if scale == 1.0 then 120.0 else 0.0
  }

  function ScaleA4View(s: ViewState, scale: real): (r: ViewState)
    ensures r.pageScale == scale && r.pageTop == TopOffset(scale)
  {
    s.(pageScale := scale, pageTop := TopOffset(scale))
  }

  /** The observer of `isCustom`: retitle the nav button, and show the panel or the
      bottom Done button, whichever exists, for the mode. */
  function SetIsCustom(s: ViewState, v: bool): (r: ViewState)
    ensures r.isCustom == v
    ensures r.navButton.Some? <==> s.navButton.Some?
    ensures r.navButton.Some? ==> r.navButton.value == NavTitle(v)
    ensures r.bottomDoneHidden.Some? <==> s.bottomDoneHidden.Some?
    ensures r.bottomDoneHidden.Some? ==> r.bottomDoneHidden.value == v
    ensures r.panel.Some? <==> s.panel.Some?
    ensures r.panel.Some? ==> r.panel.value == s.panel.value.(hidden := !v)
    ensures r.finalView == s.finalView && r.invoice == s.invoice && r.wasPaid == s.wasPaid
  {
    var nav := if s.navButton.Some? then Some(NavTitle(v)) else None;
    var done := if s.bottomDoneHidden.Some? then Some(v) else None;
    var panel := if s.panel.Some? then Some(s.panel.value.(hidden := !v)) else None;
    s.(isCustom := v, navButton := nav, bottomDoneHidden := done, panel := panel)
  }

  /** The final-mode summary of the current invoice. The total is recomputed from
      the items, not taken from the stored `total`. */
  function RenderFinal(s: ViewState): (f: FinalView)
    ensures f.paidPrompt <==> !s.wasPaid
    ensures f.total == TotalAmount(s.invoice.items)
    ensures s.invoice.client.None? ==> f.clientName == []
    ensures s.invoice.client.Some? ==> f.clientName == s.invoice.client.value.name
    ensures f.number == FormatInt(s.invoice.number)
    ensures f.issued == OnlyDate(Some(s.invoice.issued)) && f.due == OnlyDate(Some(s.invoice.due))
  {
    FinalView(
      !s.wasPaid,
      if s.invoice.client.Some? then s.invoice.client.value.name else [],
      TotalAmount(s.invoice.items),
      FormatInt(s.invoice.number),
      OnlyDate(Some(s.invoice.issued)),
      OnlyDate(Some(s.invoice.due)))
  }

  /** `showFinal`: drop the nav button, scale the page down, add Send and the summary,
      hide the bottom Done button. */
  function ShowFinal(s: ViewState): (r: ViewState)
    ensures r.finalView.Some? && r.sendButton && r.navButton.None?
    ensures r.finalView.value.paidPrompt <==> !s.wasPaid
    ensures r.finalView.value.total == TotalAmount(s.invoice.items)
    ensures r.pageScale == CompactScale && r.pageTop == 55.0
    ensures r.bottomDoneHidden.Some? <==> s.bottomDoneHidden.Some?
    ensures r.bottomDoneHidden.Some? ==> r.bottomDoneHidden.value
    ensures r.panel == s.panel && r.isCustom == s.isCustom && r.invoice == s.invoice && r.wasPaid == s.wasPaid
  {
    var t := ScaleA4View(s.(navButton := None), CompactScale);
    t.(sendButton := true,
       finalView := Some(RenderFinal(s)),
       bottomDoneHidden := if s.bottomDoneHidden.Some? then Some(true) else None)
  }

  /** Removing the final-mode views and the Send button, as the nav Done and Edit actions begin. */
  function ClearFinal(s: ViewState): (r: ViewState)
    ensures r.finalView.None? && !r.sendButton
  {
    s.(finalView := None, sendButton := false)
  }

  /** The observer of `wasPaid`: every assignment redraws the final view. */
  function SetWasPaid(s: ViewState, v: bool): (r: ViewState)
    ensures r.wasPaid == v && r.finalView.Some?
    ensures r.finalView.value.paidPrompt <==> !v
  {
    ShowFinal(s.(wasPaid := v))
  }

  /** `savePaidStatus`: the stored invoice takes the method and the paid flag. */
  function SavePaidStatus(inv: Invoice, payMethod: string, paid: bool): (r: Invoice)
    ensures r.payMethod == payMethod && r.wasPaid == paid
    ensures r.items == inv.items && r.number == inv.number && r.client == inv.client
  {
    inv.(payMethod := payMethod, wasPaid := paid)
  }

  /** The observer of `selectedPayMethod`: persist the method with the current paid flag. */
  function SetPayMethod(s: ViewState, payMethod: string): (r: ViewState)
    ensures r.selectedPayMethod == Some(payMethod)
    ensures r.invoice == SavePaidStatus(s.invoice, payMethod, s.wasPaid)
  {
    s.(selectedPayMethod := Some(payMethod), invoice := SavePaidStatus(s.invoice, payMethod, s.wasPaid))
  }

  /** `setupBottomDoneButtonAndWhiteView`: enter custom mode with a fresh panel and
      bottom Done button, the page at full scale, and white as the default swatch.
      The Send button is not removed here. */
  function SetupPanel(s: ViewState): (r: ViewState)
    ensures r.isCustom && r.finalView.None? && r.navButton == Some(NavTitle(true))
    ensures r.panel == Some(Panel(false, s.entitled)) && r.bottomDoneHidden == Some(true)
    ensures r.pageScale == FullScale && r.pageTop == 120.0
    ensures r.selectedColorAsset == (if s.selectedColorAsset.None? then Some(WhiteAsset) else s.selectedColorAsset)
    ensures r.sendButton == s.sendButton && r.theme == s.theme
  {
    var t := SetIsCustom(s.(finalView := None, panel := None, bottomDoneHidden := None), true);
    var t := ScaleA4View(t.(navButton := Some(NavTitle(true))), FullScale);
    var selected := if t.selectedColorAsset.None? then Some(WhiteAsset) else t.selectedColorAsset;
    t.(bottomDoneHidden := Some(true),
       panel := Some(Panel(false, s.entitled)),
       selectedColorAsset := selected,
       checkmarks := Checkmarks(selected),
       fontHighlight := Highlight(|FontNames|, t.selectedFontIndex),
       sizeHighlight := Highlight(|SizeOptions|, t.selectedSizeIndex))
  }

  /** `handleColorTap` on a swatch with its container tag. */
  function HandleColorTap(s: ViewState, asset: string, tag: int): (r: (ViewState, Effect))
    ensures tag == 1 ==> r == (s, PresentSubscription)
    ensures tag != 1 ==> r.1 == (if asset == ColorsAsset then PresentColorPicker else NoEffect)
    ensures tag != 1 && asset == WhiteAsset ==> r.0.selectedColorAsset == Some(WhiteAsset) && r.0.theme == DefaultTheme
    ensures tag != 1 && asset in AssetNames && asset != ColorsAsset ==> r.0.selectedColorAsset == Some(asset)
    ensures tag != 1 && (asset == ColorsAsset || asset !in AssetNames) ==>
      r.0.selectedColorAsset == s.selectedColorAsset && r.0.theme == s.theme
    ensures tag != 1 ==> r.0.checkmarks == Checkmarks(r.0.selectedColorAsset)
    ensures r.0 == s.(selectedColorAsset := r.0.selectedColorAsset, theme := r.0.theme, checkmarks := r.0.checkmarks)
  {
    if tag == 1 then (s, PresentSubscription)
    else if asset == WhiteAsset then
      (s.(selectedColorAsset := Some(asset), theme := DefaultTheme, checkmarks := Checkmarks(Some(asset))), NoEffect)
    else if asset == ColorsAsset then
      (s.(checkmarks := Checkmarks(s.selectedColorAsset)), PresentColorPicker)
    else
      match IndexOf(AssetNames, asset)
      case Some(i) =>
        (s.(selectedColorAsset := Some(asset), theme := Tinted(ColorValues[i]), checkmarks := Checkmarks(Some(asset))), NoEffect)
      case None =>
        (s.(checkmarks := Checkmarks(s.selectedColorAsset)), NoEffect)
  }

  /** `handleFontTap`: select a family, then refont every label and the title. */
  function HandleFontTap(s: ViewState, i: int): (r: ViewState)
    ensures r.selectedFontIndex == i && r.fontHighlight == Highlight(|FontNames|, i)
    ensures r.labels == ApplyFamily(s.labels, i, s.fonts)
    ensures r.title == ApplyFamilyToTitle(s.title, i, s.fonts)
  {
    s.(selectedFontIndex := i,
       fontHighlight := Highlight(|FontNames|, i),
       labels := ApplyFamily(s.labels, i, s.fonts),
       title := ApplyFamilyToTitle(s.title, i, s.fonts))
  }

  /** `handleSizeTap`: select a size variant, then resize every label from its recorded
      size and refont the title. */
  function HandleSizeTap(s: ViewState, i: int): (r: ViewState)
    ensures r.selectedSizeIndex == i && r.sizeHighlight == Highlight(|SizeOptions|, i)
    ensures r.labels == ApplySize(s.labels, s.originalSizes, s.selectedFontIndex, i, s.fonts)
    ensures r.title == ApplyFamilyToTitle(s.title, s.selectedFontIndex, s.fonts)
  {
    s.(selectedSizeIndex := i,
       sizeHighlight := Highlight(|SizeOptions|, i),
       labels := ApplySize(s.labels, s.originalSizes, s.selectedFontIndex, i, s.fonts),
       title := ApplyFamilyToTitle(s.title, s.selectedFontIndex, s.fonts))
  }

  /** The exported file's name. */
  function ExportFileName(number: int): string
  {
    FileNamePrefix + FormatInt(number) + FileNameSuffix
  }

  /** The print job's name. */
  function PrintJobName(number: int): string
  {
    FileNamePrefix + FormatInt(number)
  }

  /** Reads the invoice number back out of an exported file's name. */
  function FileNameNumber(name: string): Option<int>
  {
    if |name| >= |FileNamePrefix| + |FileNameSuffix|
       && name[..|FileNamePrefix|] == FileNamePrefix
       && name[|name| - |FileNameSuffix|..] == FileNameSuffix
    then ParseInt(name[|FileNamePrefix|..|name| - |FileNameSuffix|])
    else None
  }

  /** The exported file names a 64-bit invoice number recoverably, and the print job
      carries the same name without the extension. */
  lemma ExportFileNameRoundTrip(number: int)
    requires InIntRange(number)
    ensures FileNameNumber(ExportFileName(number)) == Some(number)
    ensures PrintJobName(number) + FileNameSuffix == ExportFileName(number)
  {
    var name := ExportFileName(number);
    assert name[..|FileNamePrefix|] == FileNamePrefix;
    assert name[|name| - |FileNameSuffix|..] == FileNameSuffix;
    assert name[|FileNamePrefix|..|name| - |FileNameSuffix|] == FormatInt(number);
    ParseFormatInt(number);
  }

  /** The panel is on screen and not hidden, so its controls receive taps. */
  predicate PanelShown(s: ViewState)
  {
    s.panel.Some? && !s.panel.value.hidden
  }

  /** One tap. While the payment sheet is up it covers the screen: only its method
      buttons and Cancel respond. */
  function Step(s: ViewState, e: Event): (r: (ViewState, Effect))
  {
    if s.paymentSheet then
      match e
      case ChoosePayMethod(i) =>
        if 0 <= i < |PayMethods| then
          (SetPayMethod(SetWasPaid(s.(paymentSheet := false), true), PayMethods[i]), NoEffect)
        else (s, NoEffect)
      case CancelPayment => (s.(paymentSheet := false), NoEffect)
      case _ => (s, NoEffect)
    else
      match e
      case TapNavDone =>
        if s.navButton.Some? then (SetIsCustom(ClearFinal(s), !s.isCustom), NoEffect) else (s, NoEffect)
      case TapBottomDone =>
        if s.bottomDoneHidden == Some(false) then (ShowFinal(SetIsCustom(s.(navButton := None), false)), NoEffect)
        else (s, NoEffect)
      case TapEdit =>
        if s.finalView.Some? then (SetupPanel(ClearFinal(s)), NoEffect) else (s, NoEffect)
      case TapPaidPrompt =>
        if s.finalView.Some? && s.finalView.value.paidPrompt then (s.(paymentSheet := true), NoEffect)
        else (s, NoEffect)
      case TapColor(a) =>
        if PanelShown(s) && a in AssetNames then HandleColorTap(s, a, ContainerTag(a, s.panel.value.entitled))
        else (s, NoEffect)
      case TapFont(i) =>
        if PanelShown(s) && 0 <= i < |FontNames| then
          if FontGated(i, s.panel.value.entitled) then (s, PresentSubscription) else (HandleFontTap(s, i), NoEffect)
        else (s, NoEffect)
      case TapSize(i) =>
        if PanelShown(s) && 0 <= i < |SizeOptions| then
          if SizeGated(i, s.panel.value.entitled) then (s, PresentSubscription) else (HandleSizeTap(s, i), NoEffect)
        else (s, NoEffect)
      case TapSend =>
        // The panel is pinned over the bottom of the screen, where the Send button sits.
        if s.sendButton && !PanelShown(s) then (s, ShareFile(ExportFileName(s.invoice.number))) else (s, NoEffect)
      case TapShare =>
        if s.finalView.Some? then (s, ShareFile(ExportFileName(s.invoice.number))) else (s, NoEffect)
      case TapPrint =>
        if s.finalView.Some? then (s, PrintJob(PrintJobName(s.invoice.number))) else (s, NoEffect)
      case ChoosePayMethod(_) => (s, NoEffect)
      case CancelPayment => (s, NoEffect)
  }

  /** The state after a sequence of taps. */
  function Run(s: ViewState, es: seq<Event>): ViewState
    decreases |es|
  {
    if |es| == 0 then s else Run(Step(s, es[0]).0, es[1..])
  }

  /** `viewDidLoad` for an invoice, the mode it was opened in and the signed-in user.
      The page starts at identity scale with the default colours and the labels as built. */
  function ViewDidLoad(inv: Invoice, isCustom: bool, user: Option<User>, labels: seq<Label>,
                       originals: seq<real>, title: Option<Label>, fonts: FontAvailability): ViewState
  {
    var entitled := user.Some? && user.value.isSubscribed;
    var s0 := ViewState(inv, entitled, isCustom, false, None, None, DefaultTheme, 0, 0, labels, originals, title, fonts,
                        FullScale, 0.0, None, None, None, false, None, false, {}, {}, {});
    var s1 := if inv.wasPaid then SetWasPaid(s0, true) else s0;
    var s2 := if isCustom then SetupPanel(s1) else ShowFinal(s1);
    s2.(navButton := if s2.navButton.Some? then Some(NavTitle(s2.isCustom)) else None)
  }

  // ---------------------------------------------------------------- invariant

  /** What the screen keeps consistent between taps. */
  predicate Inv(s: ViewState)
  {
    && 0 <= s.selectedFontIndex < |FontNames|
    && 0 <= s.selectedSizeIndex < |SizeOptions|
    && (s.panel.Some? ==> s.panel.value.hidden == !s.isCustom && s.selectedColorAsset.Some?)
    && (s.bottomDoneHidden.Some? ==> s.bottomDoneHidden.value == (s.isCustom || s.finalView.Some?))
    && (s.finalView.Some? ==>
          !s.isCustom && s.navButton.None? && s.pageScale == CompactScale
          && s.finalView.value.paidPrompt == !s.wasPaid)
    && (s.navButton.Some? ==> s.navButton.value == NavTitle(s.isCustom))
    && s.pageTop == TopOffset(s.pageScale)
    && (s.paymentSheet ==> s.finalView.Some? && !s.wasPaid)
    && s.invoice.wasPaid == s.wasPaid
    && (s.selectedPayMethod.Some? ==>
          s.wasPaid && s.selectedPayMethod.value in PayMethods && s.invoice.payMethod == s.selectedPayMethod.value)
    && (s.selectedColorAsset.Some? ==>
          s.selectedColorAsset.value in AssetNames && s.selectedColorAsset.value != ColorsAsset)
    && s.theme == ThemeFor(s.selectedColorAsset)
    && s.checkmarks == (if s.panel.Some? then Checkmarks(s.selectedColorAsset) else {})
    && s.fontHighlight == (if s.panel.Some? then Highlight(|FontNames|, s.selectedFontIndex) else {})
    && s.sizeHighlight == (if s.panel.Some? then Highlight(|SizeOptions|, s.selectedSizeIndex) else {})
  }

  /** A freshly loaded screen is consistent; it opens in the requested mode, and in
      final mode it asks whether the invoice was paid exactly when it was not. */
  lemma ViewDidLoadInv(inv: Invoice, isCustom: bool, user: Option<User>, labels: seq<Label>,
                       originals: seq<real>, title: Option<Label>, fonts: FontAvailability)
    ensures Inv(ViewDidLoad(inv, isCustom, user, labels, originals, title, fonts))
    ensures isCustom ==> PanelShown(ViewDidLoad(inv, isCustom, user, labels, originals, title, fonts))
    ensures !isCustom ==> ViewDidLoad(inv, isCustom, user, labels, originals, title, fonts).finalView.Some?
    ensures !isCustom ==>
      (ViewDidLoad(inv, isCustom, user, labels, originals, title, fonts).finalView.value.paidPrompt <==> !inv.wasPaid)
  {
  }

  /** Opened for customizing, a paid invoice keeps the Send button that the paid
      flag's redraw added: building the panel does not remove it. The panel lies over
      it, so tapping there does nothing. */
  lemma PaidCustomLoadKeepsSend(inv: Invoice, user: Option<User>, labels: seq<Label>,
                                originals: seq<real>, title: Option<Label>, fonts: FontAvailability)
    requires inv.wasPaid
    ensures ViewDidLoad(inv, true, user, labels, originals, title, fonts).sendButton
    ensures ViewDidLoad(inv, true, user, labels, originals, title, fonts).finalView.None?
    ensures !ViewDidLoad(inv, false, user, labels, originals, title, fonts).finalView.value.paidPrompt
    ensures var s := ViewDidLoad(inv, true, user, labels, originals, title, fonts);
      Step(s, TapSend) == (s, NoEffect)
  {
    var s := ViewDidLoad(inv, true, user, labels, originals, title, fonts);
    ViewDidLoadInv(inv, true, user, labels, originals, title, fonts);
    SendCovered(s);
  }

  /** A shown panel covers the Send button. */
  lemma SendCovered(s: ViewState)
    requires Inv(s) && PanelShown(s)
    ensures Step(s, TapSend) == (s, NoEffect)
  {
  }

  /** Where the Send button can be: on the final-mode screen, or under a shown panel. */
  predicate SendPlaced(s: ViewState)
  {
    s.sendButton ==> s.finalView.Some? || PanelShown(s)
  }

  /** Every tap keeps the Send button either in final mode or under the panel: leaving
      custom mode by the nav button removes it, and Edit removes it before building
      the panel. */
  lemma StepSendPlaced(s: ViewState, e: Event)
    requires Inv(s) && SendPlaced(s)
    ensures SendPlaced(Step(s, e).0)
  {
  }

  lemma {:induction false} RunSendPlaced(s: ViewState, es: seq<Event>)
    requires Inv(s) && SendPlaced(s)
    ensures Inv(Run(s, es)) && SendPlaced(Run(s, es))
    decreases |es|
  {
    if |es| > 0 {
      StepInv(s, es[0]);
      StepSendPlaced(s, es[0]);
      RunSendPlaced(Step(s, es[0]).0, es[1..]);
    }
  }

  /** On a loaded screen, after any taps, Send exports only in final mode. */
  lemma SendOnlyInFinalMode(inv: Invoice, isCustom: bool, user: Option<User>, labels: seq<Label>,
                            originals: seq<real>, title: Option<Label>, fonts: FontAvailability, es: seq<Event>)
    ensures var s := Run(ViewDidLoad(inv, isCustom, user, labels, originals, title, fonts), es);
      Step(s, TapSend).1 != NoEffect ==> s.finalView.Some?
  {
    var s0 := ViewDidLoad(inv, isCustom, user, labels, originals, title, fonts);
    ViewDidLoadInv(inv, isCustom, user, labels, originals, title, fonts);
    RunSendPlaced(s0, es);
    SendNeedsFinal(Run(s0, es));
  }

  lemma SendNeedsFinal(s: ViewState)
    requires Inv(s) && SendPlaced(s)
    ensures Step(s, TapSend).1 != NoEffect ==> s.finalView.Some?
  {
  }

  lemma SheetStepInv(s: ViewState, e: Event)
    requires Inv(s) && s.paymentSheet
    ensures Inv(Step(s, e).0)
  {
    if e.ChoosePayMethod? && 0 <= e.index < |PayMethods| {
      var t := SetWasPaid(s.(paymentSheet := false), true);
      assert Step(s, e).0 == SetPayMethod(t, PayMethods[e.index]);
    }
  }

  lemma NavDoneInv(s: ViewState)
    requires Inv(s) && s.navButton.Some?
    ensures Inv(SetIsCustom(ClearFinal(s), !s.isCustom))
  {
  }

  lemma BottomDoneInv(s: ViewState)
    requires Inv(s) && s.bottomDoneHidden == Some(false)
    ensures Inv(ShowFinal(SetIsCustom(s.(navButton := None), false)))
  {
  }

  lemma EditInv(s: ViewState)
    requires Inv(s) && s.finalView.Some? && !s.paymentSheet
    ensures Inv(SetupPanel(ClearFinal(s)))
  {
  }

  lemma ColorTapInv(s: ViewState, a: string)
    requires Inv(s) && PanelShown(s) && a in AssetNames
    ensures Inv(HandleColorTap(s, a, ContainerTag(a, s.panel.value.entitled)).0)
  {
    if ContainerTag(a, s.panel.value.entitled) != 1 && a != WhiteAsset && a != ColorsAsset {
      var i := IndexOf(AssetNames, a).value;
      assert ThemeFor(Some(a)) == Tinted(ColorValues[i]);
    }
  }

  /** Every tap keeps the screen consistent. */
  lemma StepInv(s: ViewState, e: Event)
    requires Inv(s)
    ensures Inv(Step(s, e).0)
  {
    if s.paymentSheet {
      SheetStepInv(s, e);
    } else {
      match e
      case TapNavDone =>
        if s.navButton.Some? { NavDoneInv(s); }
      case TapBottomDone =>
        if s.bottomDoneHidden == Some(false) { BottomDoneInv(s); }
      case TapEdit =>
        if s.finalView.Some? { EditInv(s); }
      case TapColor(a) =>
        if PanelShown(s) && a in AssetNames { ColorTapInv(s, a); }
      case _ =>
    }
  }

  lemma {:induction false} RunInv(s: ViewState, es: seq<Event>)
    requires Inv(s)
    ensures Inv(Run(s, es))
    decreases |es|
  {
    if |es| > 0 {
      StepInv(s, es[0]);
      RunInv(Step(s, es[0]).0, es[1..]);
    }
  }

  // ---------------------------------------------------------------- properties

  /** No tap marks an invoice unpaid again. */
  lemma {:induction false} PaidIsPermanent(s: ViewState, es: seq<Event>)
    requires s.wasPaid && s.invoice.wasPaid
    ensures Run(s, es).wasPaid && Run(s, es).invoice.wasPaid
    decreases |es|
  {
    if |es| > 0 {
      PaidIsPermanent(Step(s, es[0]).0, es[1..]);
    }
  }

  /** Choosing a method on the sheet closes it, marks the invoice paid with that method,
      and redraws the summary without the prompt. */
  lemma ChoosingMethodRecordsPayment(s: ViewState, i: int)
    requires Inv(s) && s.paymentSheet && 0 <= i < |PayMethods|
    ensures !Step(s, ChoosePayMethod(i)).0.paymentSheet
    ensures Step(s, ChoosePayMethod(i)).0.wasPaid
    ensures Step(s, ChoosePayMethod(i)).0.invoice == s.invoice.(wasPaid := true, payMethod := PayMethods[i])
    ensures Step(s, ChoosePayMethod(i)).0.selectedPayMethod == Some(PayMethods[i])
    ensures !Step(s, ChoosePayMethod(i)).0.finalView.value.paidPrompt
  {
  }

  /** Cancel closes the sheet and changes nothing else; other taps do nothing while it is up. */
  lemma SheetIsModal(s: ViewState, e: Event)
    requires s.paymentSheet && !e.ChoosePayMethod?
    ensures Step(s, e).0 == (if e.CancelPayment? then s.(paymentSheet := false) else s)
    ensures Step(s, e).1 == NoEffect
  {
  }

  /** Without a subscription, a badged option only presents the subscription offer. */
  lemma GatedTapsChangeNothing(s: ViewState, e: Event)
    requires PanelShown(s) && !s.panel.value.entitled && !s.paymentSheet
    requires (e.TapColor? && e.asset in AssetNames && e.asset != WhiteAsset)
          || (e.TapFont? && 0 < e.index < |FontNames|)
          || (e.TapSize? && e.index == LargeSizeIndex)
    ensures Step(s, e) == (s, PresentSubscription)
  {
  }

  /** A panel built for a subscriber never presents the subscription offer. */
  lemma EntitledNeverAsked(s: ViewState, e: Event)
    requires Inv(s) && s.panel.Some? && s.panel.value.entitled
    ensures Step(s, e).1 != PresentSubscription
  {
  }

  /** The white swatch is never badged and always restores the default colours. */
  lemma WhiteRestoresDefaults(s: ViewState)
    requires PanelShown(s) && !s.paymentSheet
    ensures Step(s, TapColor(WhiteAsset)).0.theme == DefaultTheme
    ensures Step(s, TapColor(WhiteAsset)).0.selectedColorAsset == Some(WhiteAsset)
    ensures Step(s, TapColor(WhiteAsset)).0.checkmarks == {WhiteAsset}
  {
  }

  /** With the panel built, exactly one swatch shows its checkmark, and it is never the
      colour-picker swatch. */
  lemma OneCheckmark(s: ViewState)
    requires Inv(s) && s.panel.Some?
    ensures s.checkmarks == {s.selectedColorAsset.value}
    ensures ColorsAsset !in s.checkmarks
  {
  }

  /** The nav button toggles the mode: two taps in a row leave the screen as it was,
      apart from the Send button, which the first tap removed. */
  lemma NavDoneTwice(s: ViewState)
    requires Inv(s) && s.navButton.Some? && !s.paymentSheet
    ensures Step(s, TapNavDone).0.isCustom == !s.isCustom
    ensures Run(s, [TapNavDone, TapNavDone]) == s.(sendButton := false)
  {
    var once := Step(s, TapNavDone).0;
    assert once.navButton.Some?;
    assert Run(s, [TapNavDone, TapNavDone]) == Step(once, TapNavDone).0 by {
      assert [TapNavDone, TapNavDone][1..] == [TapNavDone];
    }
  }

  /** Re-selecting the size a subscriber already chose changes nothing once every
      label's original size is recorded. */
  lemma SizeTapIdempotent(s: ViewState, i: int)
    requires PanelShown(s) && !s.paymentSheet && 0 <= i < |SizeOptions| && !SizeGated(i, s.panel.value.entitled)
    requires |s.labels| <= |s.originalSizes|
    ensures Step(Step(s, TapSize(i)).0, TapSize(i)).0 == Step(s, TapSize(i)).0
  {
    ApplySizeIdempotent(s.labels, s.originalSizes, s.selectedFontIndex, i, s.fonts);
  }

  /** Share and Send export the same file; Print names the job after it. Send is
      inert only under a shown panel, which a consistent final-mode screen never has. */
  lemma ExportNames(s: ViewState)
    requires !s.paymentSheet && s.finalView.Some? && s.sendButton
    ensures Step(s, TapShare).1 == ShareFile(ExportFileName(s.invoice.number))
    ensures Step(s, TapSend).1 == if PanelShown(s) then NoEffect else ShareFile(ExportFileName(s.invoice.number))
    ensures Inv(s) ==> Step(s, TapSend).1 == Step(s, TapShare).1
    ensures Step(s, TapPrint).1 == PrintJob(PrintJobName(s.invoice.number))
  {
  }
}

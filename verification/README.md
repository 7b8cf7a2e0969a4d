# Estimate-Invoice-Pro, modelled in Dafny

Estimate-Invoice-Pro is an iOS app for issuing invoices and estimates to clients. Its
screens sit on a Realm store. This project models the app's deterministic logic as
immutable Dafny values and pure functions, with the persistence and UI layers taken away:

- **Valuation** (`valuation.dfy`). The invoice total is computed item by item: the base
  is price × quantity; a percentage discount comes off; a percentage tax goes on.
- **Item entry** (`item_entry.dfy`). The new-item form's validity rule, and how the form
  is turned into a stored item.
- **Single-document screen** (`document_view.dfy`, `fonts.dfy`). The screen is a state
  machine that switches between final mode and custom mode. It covers:
  - marking an invoice paid with a method from a fixed set;
  - the page scale and top offset;
  - colour, font and size choices, with some options reserved for subscribers;
  - font-size variants computed from the label sizes recorded when the page was built;
  - the names of the exported file and the print job.
- **Income report** (`reports.dfy`). Paid invoices are grouped by (year, quarter) and
  then by (year, month). The report also lists the distinct issue years.
- **List filters** (`search.dfy`): client and item search, the current user's estimates,
  the per-client paid total, and the row display rules.
- **Client entry** (`client_entry.dfy`): save-time validation and normalisation, and the
  contact-card mapping with its address join.
- **Settings** (`settings.dfy`): the initials shown in place of a missing logo.
- **Onboarding** (`authorization.dfy`, `launch.dfy`): the view model that resets the store
  and edits the new user's profile, and the launch router with its persisted flag.

Shared pieces live in `basics.dfy`, `text.dfy`, `numbers.dfy` and `models.dfy`:

- `Option` and `Result`, sums and filters;
- ASCII string operations;
- Swift's `Int(String)` and `Double(String)`, `Int` interpolation and truncating division;
- the stored records.

Money is `real`, so sums and percentages are exact. Text is a sequence of characters, and
casing and whitespace classes are limited to ASCII. Calendar components of a date are
inputs. A subscription is an input boolean.

Behaviour worth noting:

- The subscription gate covers every colour swatch except the white one. That includes
  the colour-picker swatch, so 6 of the 7 swatches are gated.
- An invoice that is already paid and is opened for customizing keeps its Send button
  (`DocumentView.PaidCustomLoadKeepsSend`). The redraw triggered by the paid flag adds
  the button, and building the panel does not remove it. The button sits under the
  panel, which stays shown for the whole of custom mode, so it can never be tapped:
  leaving custom mode removes it (`DocumentView.SendOnlyInFinalMode`).
- The persisted key `"isFirstLaunch"` holds true once onboarding has finished, which is
  the opposite of what its name says.

## Model

| member | source | states |
|---|---|---|
| Valuation.ComputeTotalAmount | Modules/Invoices/Invoice/Single/Helpers.swift:17-28 | the accumulation loop returns the sum of every item's final amount; an empty item list gives exactly 0 |
| Valuation.FinalClosedForm | Modules/Invoices/Invoice/Single/Helpers.swift:20-24 | an item's amount, computed as base, then discount, then tax on the discounted amount, equals base × (1 − d/100) × (1 + t/100) |
| Valuation.FinalWithoutAdjustments | Modules/Invoices/Invoice/Single/Helpers.swift:20-24 | with discount and tax both 0, an item contributes exactly price × quantity |
| Valuation.TotalAppend | Modules/Invoices/Invoice/Single/Helpers.swift:19-26 | the total of two concatenated item lists is the sum of their totals |
| Valuation.TotalReorder | Modules/Invoices/Invoice/Single/Helpers.swift:19-26 | two item lists with the same items in any order have the same total |
| Valuation.FinalAntitoneInDiscount | Modules/Invoices/Invoice/Single/Helpers.swift:20-24 | for a non-negative base and a tax of at least −100, raising the discount never raises the item's amount; neither percentage is clamped |
| Valuation.FinalMonotoneInTax | Modules/Invoices/Invoice/Single/Helpers.swift:20-24 | for a non-negative base and a discount of at most 100, raising the tax never lowers the item's amount |
| Valuation.WorkedExample | Modules/Invoices/Invoice/Single/Helpers.swift:20-24 | 2 × 100 with a 10% discount and 5% tax contributes 189 |
| ItemEntry.IsValid | Modules/Invoices/Invoice/Item/ItemViewModel.swift:16-21 | the form is valid iff the name has a character other than space or tab, the price parses as a Double above 0, and the quantity parses as an Int above 0 |
| ItemEntry.PercentField | Modules/Invoices/Invoice/Item/ItemViewModel.swift:32-33 | a discount or tax is 0 when its toggle is off or its text does not parse, and the parsed value otherwise |
| ItemEntry.SaveItem | Modules/Invoices/Invoice/Item/ItemViewModel.swift:23-33 | nothing is saved iff the form is invalid; a saved item has price > 0 and quantity > 0, both equal to the parsed text; the name is stored verbatim; empty details and unit type become nil |
| ItemEntry.SaveItemToStore | Modules/Invoices/Invoice/Item/ItemViewModel.swift:24-37 | an invalid form leaves the store unchanged; a valid one appends exactly the saved item |
| ItemEntry.SaveItemFromNumbers | Modules/Invoices/Invoice/Item/ItemViewModel.swift:27-33 | a form filled from the decimal renderings of a positive price and quantity, with both toggles off, stores those numbers with 0 discount and 0 tax |
| Fonts.ApplySize | Modules/Invoices/Invoice/Single/Helpers.swift:67-87 | a label with a recorded original gets that original size, plus 1 for the large variant; a label without one starts from its current size; the face is the selected bundled font when it loads, and otherwise the system font at the label's weight |
| Fonts.ApplySizeIdempotent | Modules/Invoices/Invoice/Single/Helpers.swift:68-72 | when every label has a recorded original, applying a size variant twice equals applying it once |
| Fonts.StandardSizeRestoresOriginals | Modules/Invoices/Invoice/Single/Helpers.swift:68-72 | re-selecting the standard size puts every recorded label back to its original size |
| Fonts.UnrecordedLargeKeepsGrowing | Modules/Invoices/Invoice/Single/Helpers.swift:71-72 | without recorded originals, n applications of the large variant add n points |
| Fonts.ApplyFamily | Modules/Invoices/Invoice/Single/Helpers.swift:95-116 | a family change keeps every label's size; index 1 selects SongMyung and index 2 selects Urbanist, each only when the font loads, and a label is untouched when it does not load; any other index selects the system font at the label's previous system weight, regular when it had none |
| Fonts.ApplyFamilyToTitle | Modules/Invoices/Invoice/Single/Helpers.swift:118-135 | the title keeps its size, the system choice makes it bold, a bundled face that does not load leaves it unchanged, and without a title nothing happens |
| DocumentView.OnlyDate | Modules/Invoices/Invoice/Single/Helpers.swift:31-36 | no date gives the empty string, and a date gives at least ten characters |
| DocumentView.OnlyDateRoundTrip | Modules/Invoices/Invoice/Single/Helpers.swift:34 | reading back the yyyy-MM-dd rendering of a date (year ≥ 1, month and day below 100) gives the same date |
| DocumentView.ExportFileNameRoundTrip | Modules/Invoices/Invoice/Single/Selectors.swift:8-28 | the file name `Invoice-<number>.pdf` gives back any 64-bit invoice number, and the print job name is that file name without `.pdf` |
| DocumentView.ScaleA4View | Modules/Invoices/Invoice/Single/SingleInvoiceVC.swift:171-187 | the page takes the scale, and its top offset is 55 for 0.8, 120 for 1, and 0 otherwise |
| DocumentView.SetIsCustom | Modules/Invoices/Invoice/Single/SingleInvoiceVC.swift:120-140 | the nav button reads "Done" in custom mode and "Custom" otherwise; the bottom Done button is hidden and the panel shown exactly in custom mode, for whichever of them exists |
| DocumentView.RenderFinal | Modules/Invoices/Invoice/Single/SingleInvoiceVC.swift:380-695 | the paid prompt is shown iff the invoice is unpaid; the total shown is the item-wise total; the client name is the client's name, empty without a client; the number is its decimal rendering and both dates are rendered by `onlyDate` |
| DocumentView.ShowFinal | Modules/Invoices/Invoice/Single/SingleInvoiceVC.swift:246-380 | final mode removes the nav button, scales the page to 0.8 at offset 55, adds Send and the summary, and hides the bottom Done button |
| DocumentView.SetWasPaid | Modules/Invoices/Invoice/Single/SingleInvoiceVC.swift:96-100 | every assignment to the paid flag redraws the summary, and the prompt appears iff the new value is false |
| DocumentView.SavePaidStatus | Modules/Invoices/Invoice/Single/SingleInvoiceVC.swift:107-118 | the stored invoice takes the method and the paid flag, and its items, number and client are unchanged |
| DocumentView.SetPayMethod | Modules/Invoices/Invoice/Single/SingleInvoiceVC.swift:101-105 | setting the method persists it together with the screen's current paid flag |
| DocumentView.SetupPanel | Modules/Invoices/Invoice/Single/BottomView.swift:6-36 | entering custom mode adds the bottom Done button hidden, shows a fresh panel, and sets the scale to 1 at offset 120; with nothing selected, the white swatch becomes the selection, and an existing selection is kept (lines 166-169) |
| DocumentView.HandleColorTap | Modules/Invoices/Invoice/Single/Selectors.swift:225-266 | a tag-1 swatch only asks for a subscription; white selects itself and resets the default colours; the picker swatch opens the picker and keeps the selection; any other known swatch at index i selects it and applies colour i; an unknown asset changes nothing; the checkmarks follow the selection |
| DocumentView.HandleFontTap | Modules/Invoices/Invoice/Single/Selectors.swift:218-223 | the tapped index becomes the selection and the only highlighted button, and every label and the title are refonted |
| DocumentView.HandleSizeTap | Modules/Invoices/Invoice/Single/Selectors.swift:203-208 | the tapped index becomes the size selection and the only highlighted button, and the labels are resized from their recorded sizes |
| DocumentView.Checkmarks | Modules/Invoices/Invoice/Single/SingleInvoiceVC.swift:713-717 | a swatch's checkmark is visible iff it is the selected asset |
| DocumentView.Highlight | Modules/Invoices/Invoice/Single/SingleInvoiceVC.swift:704-708 | exactly the selected button is highlighted, and none when the index is out of range |
| DocumentView.GatedOptions | Modules/Invoices/Invoice/Single/BottomView.swift:121-322 | without a subscription, every swatch but white, the Classic and Round families, and the large size are gated; with one, nothing is |
| DocumentView.ViewDidLoadInv | Modules/Invoices/Invoice/Single/SingleInvoiceVC.swift:151-166 | a freshly loaded screen satisfies the screen invariant; it opens the panel when customizing, and otherwise shows the summary, which asks about payment iff the invoice is unpaid |
| DocumentView.PaidCustomLoadKeepsSend | Modules/Invoices/Invoice/Single/SingleInvoiceVC.swift:157-161 | a paid invoice opened for customizing has no summary but still has the Send button, and a tap on it does nothing because the panel covers it |
| DocumentView.SendOnlyInFinalMode | Modules/Invoices/Invoice/Single/BottomView.swift:22-50 | on a loaded screen, after any sequence of taps, Send exports only when the screen is in final mode |
| DocumentView.StepInv | Modules/Invoices/Invoice/Single/Selectors.swift:132-266 | every tap preserves the screen invariant: mode and visibility agree, the paid flag is mirrored in the invoice, a chosen method is one of the four, and the colours, checkmarks and highlights follow the selections |
| DocumentView.RunInv | Modules/Invoices/Invoice/Single/Selectors.swift:132-266 | any sequence of taps preserves the screen invariant |
| DocumentView.PaidIsPermanent | Modules/Invoices/Invoice/Single/Selectors.swift:140 | once paid, no sequence of taps makes an invoice unpaid again |
| DocumentView.ChoosingMethodRecordsPayment | Modules/Invoices/Invoice/Single/Selectors.swift:132-143 | choosing a method closes the sheet, marks the invoice paid with that method, and removes the paid prompt |
| DocumentView.SheetIsModal | Modules/Invoices/Invoice/Single/Selectors.swift:174-182 | Cancel closes the sheet and changes nothing else, and any other tap outside the sheet does nothing |
| DocumentView.GatedTapsChangeNothing | Modules/Invoices/Invoice/Single/Selectors.swift:210-233 | without a subscription, a gated swatch, family or size only presents the subscription offer |
| DocumentView.EntitledNeverAsked | Modules/Invoices/Invoice/Single/BottomView.swift:99-304 | a panel built for a subscriber never presents the subscription offer |
| DocumentView.WhiteRestoresDefaults | Modules/Invoices/Invoice/Single/Selectors.swift:254-256 | tapping white, whatever came before, selects it, shows only its checkmark, and restores the default colours |
| DocumentView.OneCheckmark | Modules/Invoices/Invoice/Single/SingleInvoiceVC.swift:713-717 | with the panel built, exactly one checkmark is visible, and never the picker swatch's |
| DocumentView.NavDoneTwice | Modules/Invoices/Invoice/Single/Selectors.swift:185-192 | the nav button toggles the mode, so two taps restore the screen except for the removed Send button |
| DocumentView.SizeTapIdempotent | Modules/Invoices/Invoice/Single/Selectors.swift:203-208 | re-tapping the selected size changes nothing once every label's original is recorded |
| DocumentView.ExportNames | Modules/Invoices/Invoice/Single/Selectors.swift:5-278 | Share exports the invoice's file name and Print uses the job name; Send exports the same file unless a shown panel covers it, which never happens on a consistent final-mode screen |
| Reports.LessIsStrictTotalOrder | Modules/Reports/ReportsView.swift:205-227 | the (year, quarter) and (year, month) orders are irreflexive, asymmetric, transitive and total |
| Reports.QuarterOf | Modules/Reports/ReportsView.swift:50 | months 1..12 map to quarters 1..4 in blocks of three, under truncating division |
| Reports.MissingMonthIsFirstQuarter | Modules/Reports/ReportsView.swift:49-50 | a missing month, read as 0, lands in quarter 1 because the division truncates toward zero |
| Reports.Insert | Modules/Reports/ReportsView.swift:52 | appending to a key's group keeps the keys sorted, and the first key becomes the smaller of the new key and the previous first key |
| Reports.InsertLookup | Modules/Reports/ReportsView.swift:52 | appending adds the invoice at the end of its key's group (a new group when the key was absent) and leaves every other key's group as it was |
| Reports.InsertKeys | Modules/Reports/ReportsView.swift:52 | appending gives the key list the new key and no other |
| Reports.GroupBy | Modules/Reports/ReportsView.swift:45-67 | the groups have strictly ascending keys, so no key has two groups |
| Reports.GroupByKeys | Modules/Reports/ReportsView.swift:45-53 | the group keys are exactly the keys of the invoices |
| Reports.GroupByLookup | Modules/Reports/ReportsView.swift:45-53 | the group under any key holds exactly the invoices with that key, in their original order |
| Reports.GroupMembers | Modules/Reports/ReportsView.swift:61-71 | every listed group is non-empty and holds exactly the invoices with its key |
| Reports.GroupByTotal | Modules/Reports/ReportsView.swift:62-74 | grouping conserves the sum of totals |
| Reports.TotalPaidCountsPaidOnly | Modules/Reports/ReportsView.swift:28-32 | the paid total counts each paid invoice once and each unpaid invoice not at all |
| Reports.QuarterLabelRoundTrip | Modules/Reports/ReportsView.swift:77 | the label `Q<quarter> <year>` gives back its quarter and year |
| Reports.MonthRows | Modules/Reports/ReportsView.swift:69-76 | there is one month line per month group, in ascending month order; each line's value is its group's total, its date is its group's first invoice's issue date, and the values add up to the grouped total |
| Reports.MonthLinesHaveDates | Modules/Reports/ReportsView.swift:64-72 | every month line of a quarter is labelled from an invoice of that month, so the current-date fallback is never used |
| Reports.QuarterRows | Modules/Reports/ReportsView.swift:55-60 | the `i`th quarter line is built from the `i`th group counted from the back, so the keys descend |
| Reports.QuartersDescending | Modules/Reports/ReportsView.swift:55 | the report's quarters are strictly descending, newest first, and no quarter appears twice |
| Reports.QuarterSumsAddUpToTotalPaid | Modules/Reports/ReportsView.swift:30-62 | the quarter sums add up to the paid total |
| Reports.QuarterMonths | Modules/Reports/ReportsView.swift:61-78 | within each quarter line the months ascend, each lies in that quarter, and their values add up to the quarter's sum |
| Reports.UnpaidInvoiceIgnored | Modules/Reports/ReportsView.swift:30-43 | adding an unpaid invoice changes neither the paid total nor the quarter breakdown |
| Reports.InvoiceYears | Modules/Reports/ReportsView.swift:5-12 | the years are strictly descending, so duplicate-free, and they are exactly the invoices' issue years |
| Reports.CurrentYearIsLatest | Modules/Reports/ReportsView.swift:14-16 | the current year is the greatest issue year, and is nil exactly when there are no invoices |
| Search.FilteredClients | Modules/Client/ClientMainView/Domain/ClientsViewModel.swift:14-22 | a query of only spaces and tabs returns the list unchanged; otherwise the result is exactly the clients whose lower-cased name contains the lower-cased, untrimmed query, in the original order |
| Search.FilteredItems | Modules/Settings/Item/ItemSettingsView.swift:11-17 | only the empty query returns every item; any other query, whitespace included, keeps exactly the matching items, in order |
| Search.SearchesDifferOnBlankQuery | Modules/Settings/Item/ItemSettingsView.swift:12-15 | on the query " ", client search lists every client, but item search drops an item whose name has no space |
| Search.ShowsDetailsIffNormalised | Modules/Settings/Item/ItemSettingsView.swift:95 | an item row shows details iff they are present and non-empty, the same condition under which saving keeps them |
| Search.UserEstimates | Modules/Invoices/Estimate/EstimatesTabView.swift:16-19 | with no user the list is empty; otherwise it holds exactly the user's estimates, in stored order |
| Search.FormatShortDate | Modules/Invoices/Estimate/EstimatesTabView.swift:131-136 | a missing date shows as "--", and a present one in the platform's short style |
| Search.TotalPaidForCountsOwnPaid | Modules/Client/ClientMainView/Domain/ClientsViewModel.swift:24-29 | a client's paid total counts each of that client's paid invoices once and every other invoice not at all; it is 0 when there are none |
| ClientEntry.SaveClient | Modules/Client/AddClient/AddClientViewModel.swift:18-33 | saving fails with `emptyName` iff the name is only whitespace and newlines; otherwise the name is kept untrimmed, the balance is 0, and empty email, phone or address become nil while non-empty ones are kept verbatim |
| ClientEntry.SaveClientToStore | Modules/Client/AddClient/AddClientViewModel.swift:19-32 | a rejected save leaves the store unchanged, and an accepted one appends exactly the normalised client `SaveClient` builds |
| ClientEntry.SaveClientStable | Modules/Client/AddClient/AddClientViewModel.swift:23-27 | saving a saved client's fields again gives the same client |
| ClientEntry.FillFields | Modules/Client/AddClient/AddClientViewModel.swift:7-16 | all four form fields take the contact's values |
| ClientEntry.FillFieldsForgetsPrevious | Modules/Client/AddClient/AddClientViewModel.swift:12-15 | the filled form does not depend on what was typed before |
| ClientEntry.ContactToData | Modules/Client/AddClient/ContactPicker.swift:26-40 | a missing name, first email or first phone becomes ""; the address is the joined first postal address, or "" when there is none |
| ClientEntry.AddressSegments | Modules/Client/AddClient/ContactPicker.swift:32 | the joined segments are exactly the non-empty components, in card order, and none is empty |
| ClientEntry.FormatAddressEmptyIff | Modules/Client/AddClient/ContactPicker.swift:31-33 | the address line is empty iff every component is empty |
| ClientEntry.FormatAddressFull | Modules/Client/AddClient/ContactPicker.swift:32 | with all components present, the line is street, city, state, postal code and country, separated by ", " |
| ClientEntry.BareContactSavesNils | Modules/Client/AddClient/AddClientViewModel.swift:24-26 | a contact with no email, phone or address, filled in and saved, gives a client whose optional fields are nil |
| Settings.Initials | Modules/Settings/SettingsView.swift:13-19 | no name gives ""; otherwise there is one upper-case initial per word, at most two; the first is the first non-space character of the name, upper-cased, and the second is the upper-cased first character of the second word |
| Settings.InitialsIgnoreLeadingSpace | Modules/Settings/SettingsView.swift:15 | a leading space does not change the initials, because the split omits empty pieces |
| Settings.BlankNameHasNoInitials | Modules/Settings/SettingsView.swift:15-18 | a name of only spaces has no initials |
| Settings.SingleWordOneInitial | Modules/Settings/SettingsView.swift:17 | a one-word name has exactly one initial |
| Settings.TwoWordsTwoInitials | Modules/Settings/SettingsView.swift:15-18 | two words separated by any run of spaces give both initials, upper-cased |
| Authorization.Init | Modules/Authorization/Domain/AuthorizationViewModel.swift:10-26 | afterwards the store holds exactly one fresh user and one core record, which names that user as current and as its only user |
| Authorization.InitForgetsStore | Modules/Authorization/Domain/AuthorizationViewModel.swift:12-15 | the prior store content has no effect |
| Authorization.PhoneValue | Modules/Authorization/Domain/AuthorizationViewModel.swift:40-48 | a phone is stored iff the text is present, non-empty and parses as a 64-bit Int, and nil is stored otherwise |
| Authorization.PhoneRoundTrip | Modules/Authorization/Domain/AuthorizationViewModel.swift:42-43 | entering the digits of a 64-bit integer stores that integer |
| Authorization.PhoneOutOfRangeDropped | Modules/Authorization/Domain/AuthorizationViewModel.swift:42-46 | the digits of a number outside 64 bits store nil |
| Authorization.PhoneWithSpaceDropped | Modules/Authorization/Domain/AuthorizationViewModel.swift:42-46 | text containing a space stores nil |
| Authorization.ApplyEdit | Modules/Authorization/Domain/AuthorizationViewModel.swift:28-61 | each setter writes only its own field: name, email and address are stored verbatim, nil included; the phone is normalised; a nil logo leaves the user unchanged |
| Authorization.NilLogoKeepsUser | Modules/Authorization/Domain/AuthorizationViewModel.swift:57 | `setLogo(nil)` leaves the user as it was |
| Authorization.EditsOfDifferentFieldsCommute | Modules/Authorization/Domain/AuthorizationViewModel.swift:28-61 | setters of different fields give the same user in either order |
| Authorization.EditIdempotent | Modules/Authorization/Domain/AuthorizationViewModel.swift:28-61 | repeating a setter has no further effect |
| Authorization.Apply | Modules/Authorization/Domain/AuthorizationViewModel.swift:28-61 | a setter changes only the user being set up, and leaves the other users and every core record as they were |
| Authorization.SetupKeepsOneUser | Modules/Authorization/Domain/AuthorizationViewModel.swift:10-61 | after creation and any setters, the store still has one user, and the core still names it |
| Authorization.OnboardingRecordsProfile | Modules/Authorization/Domain/AuthorizationViewModel.swift:28-48 | creation followed by name, email and phone setters gives a user holding exactly those values |
| Launch.WithViewModel | Core/Routing/LaunchCoordinator.swift:35 | the lazy view model is created, and the store wiped, only on first access; later accesses return the same one |
| Launch.Step | Core/Routing/LaunchCoordinator.swift:13-46 | only finishing onboarding sets the flag, and no event clears it |
| Launch.DispatchChoosesScreen | Core/Routing/LaunchCoordinator.swift:13-20 | the first onboarding screen is shown while the flag is unset, and the main tabs afterwards |
| Launch.ReturningLaunchKeepsStore | Core/Routing/LaunchCoordinator.swift:14-18 | a launch after onboarding does not touch the stored users |
| Launch.FinishShowsMain | Core/Routing/LaunchCoordinator.swift:43-46 | finishing sets the flag and shows the main tabs |
| Launch.FlagMonotone | Core/Routing/LaunchCoordinator.swift:14-44 | once set, the flag stays set through any events |
| Launch.FinishedMeansMainForever | Core/Routing/LaunchCoordinator.swift:14-44 | after finishing, every later launch dispatches to the main tabs |
| Launch.ViewModelCreatedOnce | Core/Routing/LaunchCoordinator.swift:30-38 | once created, the view model is kept through any events |
| Launch.SecondScreenSharesViewModel | Core/Routing/LaunchCoordinator.swift:30-38 | a name entered on the first screen is still there on the second |
| Launch.UnfinishedOnboardingRestarts | Core/Routing/LaunchCoordinator.swift:14-35 | a relaunch before finishing wipes the store and starts again with a fresh user |

## Left out

- Realm and transactions. The store is a plain sequence or record. Failed `try?` and `try!` writes, and live queries, are not modelled.
- Screen layout and drawing. This covers views, constraints, colours as drawn, animations, `setupInvoice` and `asPDFData`. The PDF bytes, the activity sheet and the print controller are not modelled; only the file name and job name are.
- The a4View lookup guards in `exportInvoiceToPDF`, `didTapShare` and `didTapPrint`. The page is assumed to exist.
- The colour picker's callback. The delegate method is not part of this model; tapping the picker swatch only yields the `PresentColorPicker` effect.
- The subscription flow. StoreKit is asynchronous and framework-bound; "is subscribed" is an input, read from the user record.
- `currencySymbol`, the currency prefix of the displayed total, and the currency network fetch. They depend on the platform locale database and the network.
- IEEE doubles and `%.2f` rounding. Money is exact `real`.
- `ItemEntry.IsValid`: `Double(String)` covers only plain decimal literals. Exponents, hexadecimal, `inf` and `nan` are rejected, so the model's validity is weaker than the platform's for those spellings.
- DateFormatter's short style, the `MMMM yyyy` month labels and the month line's `?? Date()` fallback. The short style is a parameter of `Search.FormatShortDate`. A month line keeps its first invoice's issue date instead of a label, and `None` in place of the current date; `Reports.MonthLinesHaveDates` shows the fallback never happens, because month groups are never empty.
- `DocumentView.OnlyDate`: the model prints the year of the era zero-padded to four digits, and the month and day to two. Calendar components are inputs, and time zones are not modelled.
- The paid row's date and the Send button's export. The paid row shows today's date (a clock read). The Send button's export is modelled by the name of the file it shares, as for the Share action; the PDF rendering is not modelled.
- The estimates row's `total ?? 0` fallback. `total` is a non-optional `Double`, so the fallback never applies.
- Non-ASCII text. Lower-casing, upper-casing and whitespace classes cover ASCII only; `Settings.Initials` takes the first character where Swift takes the first grapheme cluster.
- `Search.FilteredItems`, `Search.FilteredClients`: matching is a plain substring test after ASCII lower-casing. Locale-aware comparison is not modelled.
- The `UserViewModel` singleton and user switching. The current user is an explicit argument.
- `formattedYear` and `paidCurrency` in the reports screen. Both are display formatting.
- `Launch.Step`: the first onboarding screen's navigation to the second is an event; the views themselves are not modelled.

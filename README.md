# Tax Tracker — a verified model of the category and invoice core

Tax Tracker is an Android app that keeps household bills ("invoices") under categories
such as Electricity, Water and City Taxes. This project models the app's core in Dafny:

- the domain records and their defaults;
- the in-memory category store and the category list view-model, which picks the next id,
  stores a blank description as absent and reloads after every change;
- the add and edit category forms. These check the name (required, unique ignoring case and
  surrounding whitespace) and the `#RRGGBB` colour, and they share the preset colour palette
  and its preview;
- the category navigation: the edit route and its id argument, the name sets the forms check
  against, the fallback when a category is missing, and the one-shot "category added" flag;
- the invoice store, as the repository's documentation describes it, and the invoice list
  view-model with its loading, loaded and error states;
- the add and edit invoice forms. They check the amount first, then the length of the date
  text, and pass on trimmed values;
- the display rules of the invoice list and details screens, and the list's delete
  confirmation.

Code that changes state step by step is modelled as classes with `modifies` clauses: the
stores, the view-models, the forms, the saved-state handles and the back stack. Pure
mappings and checks are modelled as functions with lemmas. A repository call that throws
is modelled as an explicit `fails`/`fault` parameter. Each callback a screen makes
(`onSaveCategory`, `onNavigateBack`, `onDeleteInvoice`, …) is recorded as an element of an
`effects` sequence.

Files: `wrappers.dfy` (Option), `text.dfy` (Kotlin string functions), `numbers.dfy`
(Long, Double, decimal text), `dates.dfy` (`LocalDate.toString`), `sequences.dfy` (filtering),
`models.dfy`, `category_store.dfy`, `category_list.dfy`, `color_palette.dfy`,
`category_form.dfy`, `navigation.dfy`, `invoice_store.dfy`, `invoice_list.dfy`,
`invoice_form.dfy`, `invoice_display.dfy`.

## Model

| member | source | states |
|---|---|---|
| Models.PaymentStatusHasThreeValues | app/src/main/java/com/dinyairsadot/taxtracker/core/domain/Models.kt:6-10 | every payment status is one of paid in full, not paid and paid with credit, and there are exactly three |
| Models.CustomFieldTypeHasFourValues | app/src/main/java/com/dinyairsadot/taxtracker/core/domain/Models.kt:12-17 | every custom field type is one of text, number, date and boolean, and there are exactly four |
| Models.CategoryDefaults | app/src/main/java/com/dinyairsadot/taxtracker/core/domain/Models.kt:19-24 | a category made without a description has none |
| Models.CustomFieldDefinitionDefaults | app/src/main/java/com/dinyairsadot/taxtracker/core/domain/Models.kt:30-38 | a custom field is made not archived and at position 0 |
| Models.InvoiceDefaults | app/src/main/java/com/dinyairsadot/taxtracker/core/domain/Models.kt:43-54 | an invoice made from its required parts has no due date, payment date, consumption value, consumption unit or notes |
| CategoryStore.SeedCategories | app/src/main/java/com/dinyairsadot/taxtracker/feature/category/InMemoryCategoryRepository.kt:9-28 | the store is seeded with three categories whose ids are 1, 2 and 3 in order |
| CategoryStore.SeedNamesDistinct | app/src/main/java/com/dinyairsadot/taxtracker/feature/category/InMemoryCategoryRepository.kt:9-28 | the seeded names Electricity, Water and City Taxes are pairwise different once trimmed and lower-cased, so the uniqueness check tells them apart |
| CategoryStore.InMemoryCategoryRepository.constructor | app/src/main/java/com/dinyairsadot/taxtracker/feature/category/InMemoryCategoryRepository.kt:9-28 | a new store holds exactly the seeded categories |
| CategoryStore.InMemoryCategoryRepository.GetCategories | app/src/main/java/com/dinyairsadot/taxtracker/feature/category/InMemoryCategoryRepository.kt:30-33 | returns the stored list as it is, in order |
| CategoryStore.InMemoryCategoryRepository.AddCategory | app/src/main/java/com/dinyairsadot/taxtracker/feature/category/InMemoryCategoryRepository.kt:35-37 | appends the category at the end and changes nothing else |
| CategoryStore.InMemoryCategoryRepository.DeleteCategory | app/src/main/java/com/dinyairsadot/taxtracker/feature/category/InMemoryCategoryRepository.kt:39-41 | the new list is the old one with every category of that id removed |
| CategoryStore.RemoveByIdSpec | app/src/main/java/com/dinyairsadot/taxtracker/feature/category/InMemoryCategoryRepository.kt:39-41 | after `removeAll` no category has the id; every other category stays as often as before, and the order is kept |
| CategoryStore.RemoveAbsentId | app/src/main/java/com/dinyairsadot/taxtracker/feature/category/InMemoryCategoryRepository.kt:39-41 | deleting an id that no category has changes nothing |
| CategoryStore.RemoveByIdIdempotent | app/src/main/java/com/dinyairsadot/taxtracker/feature/category/InMemoryCategoryRepository.kt:39-41 | deleting the same id twice is the same as deleting it once |
| Numbers.AddLong | app/src/main/java/com/dinyairsadot/taxtracker/feature/category/CategoryListViewModel.kt:72 | `Long` addition is the exact sum when it fits, and otherwise wraps by 2^64 |
| CategoryList.ToUiListPreservesFields | app/src/main/java/com/dinyairsadot/taxtracker/feature/category/CategoryListViewModel.kt:117-124 | the list shows every category in store order, with its id, name and colour unchanged |
| CategoryList.BlankDescriptionShownEmpty | app/src/main/java/com/dinyairsadot/taxtracker/feature/category/CategoryListViewModel.kt:74-79 | a blank description is stored as null and shown as the empty text; any other description is shown as typed |
| CategoryList.MaxId | app/src/main/java/com/dinyairsadot/taxtracker/feature/category/CategoryListViewModel.kt:72 | `maxOfOrNull`: absent exactly for an empty list; otherwise the value is the id of a listed category, and no listed id is larger |
| CategoryList.NextIdFresh | app/src/main/java/com/dinyairsadot/taxtracker/feature/category/CategoryListViewModel.kt:72 | while no id is `Long.MAX_VALUE`, the next id is larger than every existing id: it is 1 for an empty list, and otherwise one more than an existing id |
| CategoryList.NextIdWrapsAtMax | app/src/main/java/com/dinyairsadot/taxtracker/feature/category/CategoryListViewModel.kt:72 | when some id is `Long.MAX_VALUE` the next id wraps to `Long.MIN_VALUE` |
| CategoryList.AddKeepsIdsConsecutive | app/src/main/java/com/dinyairsadot/taxtracker/feature/category/CategoryListViewModel.kt:72-81 | when the ids are 1..n, the next id is n+1, and adding a category under it keeps the ids 1..n+1 |
| CategoryList.CategoryListViewModel.constructor | app/src/main/java/com/dinyairsadot/taxtracker/feature/category/CategoryListViewModel.kt:29 | the first snapshot is loading, with no categories and no error |
| CategoryList.CategoryListViewModel.LoadInitialCategories | app/src/main/java/com/dinyairsadot/taxtracker/feature/category/CategoryListViewModel.kt:36-57 | the load ends not loading, showing the store's categories and no error, or, on failure, an empty list and "Failed to load categories" |
| CategoryList.OpenCategoryList | app/src/main/java/com/dinyairsadot/taxtracker/feature/category/CategoryListViewModel.kt:29-57 | the view-model loads as soon as it is built: over a new store it first shows loading, then the three seed categories with no error, or, on failure, an empty list and "Failed to load categories" |
| CategoryList.CategoryListViewModel.AddCategory | app/src/main/java/com/dinyairsadot/taxtracker/feature/category/CategoryListViewModel.kt:67-95 | appends a category with the next id, the given name and colour, and the stored form of the description; then it shows the reloaded list and clears the error. A failure before the add leaves the store unchanged, and any failure sets "Failed to add category" and keeps the shown list |
| CategoryList.CategoryListViewModel.DeleteCategory | app/src/main/java/com/dinyairsadot/taxtracker/feature/category/CategoryListViewModel.kt:97-113 | removes the id from the store, then shows the reloaded list and clears the error; a failure sets "Failed to delete category" and keeps the shown list |
| ColorPalette.PresetValid | app/src/main/java/com/dinyairsadot/taxtracker/feature/category/CategoryColorPalette.kt:28-38 | each preset's hex text is a valid `#RRGGBB` colour, and it parses to exactly the opaque ARGB value the preset is drawn with |
| ColorPalette.PresetColorsDistinct | app/src/main/java/com/dinyairsadot/taxtracker/feature/category/CategoryColorPalette.kt:28-38 | there are nine presets, and no two share a colour |
| ColorPalette.PresetHexesDistinct | app/src/main/java/com/dinyairsadot/taxtracker/feature/category/CategoryColorPalette.kt:28-38 | no two presets' hex texts are equal ignoring case |
| ColorPalette.ParseCategoryColorOrNull | app/src/main/java/com/dinyairsadot/taxtracker/feature/category/CategoryColorPalette.kt:76-87 | a colour is produced only for text that, once trimmed, matches `^#[0-9A-Fa-f]{6}$`, and it is opaque: between 0xFF000000 and 2^32-1 |
| ColorPalette.ParseFailsIffNoMatch | app/src/main/java/com/dinyairsadot/taxtracker/feature/category/CategoryColorPalette.kt:76-87 | the parse gives null exactly when the trimmed text does not match the pattern |
| ColorPalette.ParseIgnoresCase | app/src/main/java/com/dinyairsadot/taxtracker/feature/category/CategoryColorPalette.kt:76-87 | two colour texts equal ignoring case both match or both fail, and they parse to the same colour |
| ColorPalette.PreviewFillFor | app/src/main/java/com/dinyairsadot/taxtracker/feature/category/CategoryColorPalette.kt:94-95 | the preview falls back to the surface-variant fill exactly when the text does not parse |
| ColorPalette.AtMostOneSelected | app/src/main/java/com/dinyairsadot/taxtracker/feature/category/CategoryColorPalette.kt:51-52 | whatever the colour text, at most one preset is shown as selected |
| ColorPalette.ClickSelectsOnlyThatPreset | app/src/main/java/com/dinyairsadot/taxtracker/feature/category/CategoryColorPalette.kt:68-70 | after a preset is clicked, it is the only selected preset, and the colour text it sets is valid |
| CategoryForm.NameCheck | app/src/main/java/com/dinyairsadot/taxtracker/feature/category/AddCategoryScreen.kt:38-44 | "Name is required" exactly for a blank name; "Name must be unique" exactly when the trimmed, lower-cased name is taken; no error otherwise |
| CategoryForm.ColorCheckAgreesWithPreview | app/src/main/java/com/dinyairsadot/taxtracker/feature/category/AddCategoryScreen.kt:46-52 | the form accepts a colour exactly when it is blank or the preview can parse it |
| CategoryForm.PresetPassesColorCheck | app/src/main/java/com/dinyairsadot/taxtracker/feature/category/AddCategoryScreen.kt:46-52 | a colour picked from the presets always passes the colour check |
| CategoryForm.AcceptedSaveIsClean | app/src/main/java/com/dinyairsadot/taxtracker/feature/category/AddCategoryScreen.kt:54-62 | an accepted save passes on a non-empty, already-trimmed name that is not taken, a colour that is empty or valid, and a trimmed description |
| CategoryForm.AddCategoryForm.constructor | app/src/main/java/com/dinyairsadot/taxtracker/feature/category/AddCategoryScreen.kt:28-33 | the add form starts with empty fields and no errors |
| CategoryForm.AddCategoryForm.OnSaveClicked | app/src/main/java/com/dinyairsadot/taxtracker/feature/category/AddCategoryScreen.kt:35-63 | both checks run, and either can set its error; an error already shown stays until its field changes. Only when both pass does the form save the trimmed values, set the "added" flag and go back, in that order |
| CategoryForm.AddCategoryForm.OnNameChange | app/src/main/java/com/dinyairsadot/taxtracker/feature/category/AddCategoryScreen.kt:74-77 | editing the name clears the name error and nothing else |
| CategoryForm.AddCategoryForm.OnColorHexChange | app/src/main/java/com/dinyairsadot/taxtracker/feature/category/AddCategoryScreen.kt:78-81 | editing the colour clears the colour error and nothing else |
| CategoryForm.AddCategoryForm.OnDescriptionChange | app/src/main/java/com/dinyairsadot/taxtracker/feature/category/AddCategoryScreen.kt:82-84 | editing the description clears no error |
| CategoryForm.EditCategoryForm.constructor | app/src/main/java/com/dinyairsadot/taxtracker/feature/category/EditCategoryScreen.kt:33-40 | the edit form starts from the category's values, a missing description as empty text, with no errors and no dialog |
| CategoryForm.EditCategoryForm.OnSaveClicked | app/src/main/java/com/dinyairsadot/taxtracker/feature/category/EditCategoryScreen.kt:42-69 | the same checks as the add form, against the other categories' names; a clean save passes on the trimmed values and goes back |
| CategoryForm.EditCategoryForm.OnNameChange | app/src/main/java/com/dinyairsadot/taxtracker/feature/category/EditCategoryScreen.kt:80-83 | editing the name clears the name error and nothing else |
| CategoryForm.EditCategoryForm.OnColorHexChange | app/src/main/java/com/dinyairsadot/taxtracker/feature/category/EditCategoryScreen.kt:84-87 | editing the colour clears the colour error and nothing else |
| CategoryForm.EditCategoryForm.OnDescriptionChange | app/src/main/java/com/dinyairsadot/taxtracker/feature/category/EditCategoryScreen.kt:88-90 | editing the description clears no error |
| CategoryForm.EditCategoryForm.OnDeleteClick | app/src/main/java/com/dinyairsadot/taxtracker/feature/category/EditCategoryScreen.kt:92 | the delete button only opens the confirmation dialog |
| CategoryForm.EditCategoryForm.OnDismissDeleteDialog | app/src/main/java/com/dinyairsadot/taxtracker/feature/category/EditCategoryScreen.kt:118-145 | dismissing or cancelling closes the dialog without deleting |
| CategoryForm.EditCategoryForm.OnConfirmDelete | app/src/main/java/com/dinyairsadot/taxtracker/feature/category/EditCategoryScreen.kt:128-134 | confirming closes the dialog, deletes the category, then goes back |
| CategoryForm.SaveNeverDeletes | app/src/main/java/com/dinyairsadot/taxtracker/feature/category/EditCategoryScreen.kt:61-68 | a save never deletes the category |
| Navigation.RouteWithId | app/src/main/java/com/dinyairsadot/taxtracker/core/ui/Navigation.kt:22-24 | an edit route starts with the `edit_category/` prefix and is longer than it |
| Navigation.RouteWithIdRoundTrip | app/src/main/java/com/dinyairsadot/taxtracker/core/ui/Navigation.kt:100-110 | the `Long` argument read back from `routeWithId(id)` is `id` itself |
| Navigation.RouteWithIdInjective | app/src/main/java/com/dinyairsadot/taxtracker/core/ui/Navigation.kt:24 | different ids give different routes |
| Navigation.AddChecksAgainstEveryName | app/src/main/java/com/dinyairsadot/taxtracker/core/ui/Navigation.kt:75-77 | the add form calls a non-blank name taken exactly when some listed category's name has the same trimmed, lower-cased form |
| Navigation.OwnNamePassesEdit | app/src/main/java/com/dinyairsadot/taxtracker/core/ui/Navigation.kt:126-129 | while names are unique, the edit form accepts the category's own name in any case and spacing, which the add form would reject |
| Navigation.FindCategory | app/src/main/java/com/dinyairsadot/taxtracker/core/ui/Navigation.kt:119 | `firstOrNull`: null exactly when no category has the id; otherwise the first category with it |
| Navigation.EditDestinationFor | app/src/main/java/com/dinyairsadot/taxtracker/core/ui/Navigation.kt:119-124 | the edit destination pops back exactly when no listed category has the id |
| Navigation.EditFormStartsFromCategory | app/src/main/java/com/dinyairsadot/taxtracker/core/ui/Navigation.kt:119-135 | for a listed category with a unique id, the edit form opens with that category's name, colour and description, and with the other categories' names |
| Navigation.NavController.OnCategorySaved | app/src/main/java/com/dinyairsadot/taxtracker/core/ui/Navigation.kt:87-93 | sets `category_added` to true on the previous back-stack entry, when there is one |
| Navigation.OnCategoryAddedMessageShown | app/src/main/java/com/dinyairsadot/taxtracker/core/ui/Navigation.kt:57-59 | removes the flag, after which the message is no longer shown |
| Navigation.CategoryAddedRound | app/src/main/java/com/dinyairsadot/taxtracker/core/ui/Navigation.kt:45-46 | from any back stack with the list on top, whatever flag the list held: after an add the back stack is as before, the list is on top and shows the "added" message once; after the message has been shown, it does not show again |
| InvoiceStore.InMemoryInvoiceRepository.constructor | app/src/main/java/com/dinyairsadot/taxtracker/feature/invoice/InvoiceListViewModel.kt:29 | the store starts empty, with unique ids |
| InvoiceStore.InMemoryInvoiceRepository.GetInvoicesForCategory | app/src/main/java/com/dinyairsadot/taxtracker/core/domain/InvoiceRepository.kt:5-8 | returns all and only the stored invoices of the category, each as often as the store holds it, in store order |
| InvoiceStore.InMemoryInvoiceRepository.GetInvoiceById | app/src/main/java/com/dinyairsadot/taxtracker/core/domain/InvoiceRepository.kt:10-13 | returns null exactly when no invoice has the id; otherwise a stored invoice with that id |
| InvoiceStore.InMemoryInvoiceRepository.AddInvoice | app/src/main/java/com/dinyairsadot/taxtracker/core/domain/InvoiceRepository.kt:15-21 | given an id not yet used, as the caller must supply, appends the invoice, keeps ids unique, and a later read by that id returns it |
| InvoiceStore.InMemoryInvoiceRepository.UpdateInvoice | app/src/main/java/com/dinyairsadot/taxtracker/core/domain/InvoiceRepository.kt:23-27 | replaces the invoice with the same id in place and keeps ids unique; an unknown id leaves the store unchanged; a read afterwards returns the new invoice |
| InvoiceStore.InMemoryInvoiceRepository.DeleteInvoice | app/src/main/java/com/dinyairsadot/taxtracker/core/domain/InvoiceRepository.kt:29-32 | no invoice with the id remains, the rest stay in order, and ids stay unique |
| InvoiceStore.FindInvoice | app/src/main/java/com/dinyairsadot/taxtracker/core/domain/InvoiceRepository.kt:10-13 | absent exactly when no invoice has the id; otherwise a listed invoice with it |
| InvoiceStore.FindInvoiceUnique | app/src/main/java/com/dinyairsadot/taxtracker/core/domain/InvoiceRepository.kt:10-13 | with unique ids, looking up any stored invoice's id finds that very invoice |
| InvoiceStore.ReplaceByIdSpec | app/src/main/java/com/dinyairsadot/taxtracker/core/domain/InvoiceRepository.kt:23-27 | an update keeps the length and every id, changes only the entry with the id, and keeps ids unique |
| InvoiceStore.ReplaceAbsentId | app/src/main/java/com/dinyairsadot/taxtracker/core/domain/InvoiceRepository.kt:23-27 | updating an unknown id is ignored |
| InvoiceStore.SubsequenceKeepsUniqueIds | app/src/main/java/com/dinyairsadot/taxtracker/core/domain/InvoiceRepository.kt:29-32 | any subsequence of a list with unique ids, such as what a delete leaves, has unique ids |
| InvoiceStore.DeleteKeepsOthers | app/src/main/java/com/dinyairsadot/taxtracker/core/domain/InvoiceRepository.kt:29-32 | a delete keeps every invoice with another id exactly as often as before, and deleting twice is deleting once |
| InvoiceStore.AddShowsInOwnCategory | app/src/main/java/com/dinyairsadot/taxtracker/core/domain/InvoiceRepository.kt:15-21 | an added invoice appears last in its own category's list, and every other category's list is unchanged |
| Dates.DateTextLength | app/src/main/java/com/dinyairsadot/taxtracker/feature/invoice/InvoiceListViewModel.kt:68 | `LocalDate.toString()` is never shorter than `uuuu-MM-dd` |
| InvoiceList.ToUiPreserves | app/src/main/java/com/dinyairsadot/taxtracker/feature/invoice/InvoiceListViewModel.kt:62-71 | the shown record keeps id, number, amount, status and notes; it has a due-date text exactly when there is a due date, and that text has at least ten characters |
| InvoiceList.LoadedListIsTheCategory | app/src/main/java/com/dinyairsadot/taxtracker/feature/invoice/InvoiceListViewModel.kt:44-47 | every shown record comes from an invoice of the category, and every invoice of the category is shown |
| InvoiceList.InvoiceListViewModel.constructor | app/src/main/java/com/dinyairsadot/taxtracker/feature/invoice/InvoiceListViewModel.kt:32 | the first snapshot is loading, with no invoices and no error |
| InvoiceList.InvoiceListViewModel.StartLoadInvoices | app/src/main/java/com/dinyairsadot/taxtracker/feature/invoice/InvoiceListViewModel.kt:40 | starting a load sets loading, clears the error and keeps the shown invoices |
| InvoiceList.InvoiceListViewModel.FinishLoadInvoices | app/src/main/java/com/dinyairsadot/taxtracker/feature/invoice/InvoiceListViewModel.kt:42-57 | a load ends not loading: with the category's invoices mapped in order and no error, or with an empty list and "Failed to load invoices" |
| InvoiceList.InvoiceListViewModel.LoadInvoices | app/src/main/java/com/dinyairsadot/taxtracker/feature/invoice/InvoiceListViewModel.kt:39-58 | once the launched block has run, the state is not loading and is either the loaded list or the load error |
| InvoiceForm.InvoiceFormState.ForAdd | app/src/main/java/com/dinyairsadot/taxtracker/feature/invoice/AddInvoiceScreen.kt:45-51 | the add form starts with empty amount, date and notes, status not paid, and no errors |
| InvoiceForm.InvoiceFormState.ForEdit | app/src/main/java/com/dinyairsadot/taxtracker/feature/invoice/AddInvoiceScreen.kt:208-214 | the edit form starts from its parameters, with no errors |
| InvoiceForm.SaveOutcomeFor | app/src/main/java/com/dinyairsadot/taxtracker/feature/invoice/AddInvoiceScreen.kt:53-68 | the rules with the corrected amount test (a finite amount above zero): an invalid amount sets "Enter a valid amount" and stops before the date check, so the date error is left as it was. A valid amount clears the amount error. Then a non-blank date shorter than 8 units sets the date error, and anything else clears it. The form saves exactly when both checks pass |
| InvoiceForm.InvoiceFormState.HandleSave | app/src/main/java/com/dinyairsadot/taxtracker/feature/invoice/AddInvoiceScreen.kt:53-72 | the errors are set as the rules above say, and the fields are unchanged. A save that goes through makes exactly two callbacks: first the amount, the trimmed date, the status and the trimmed notes, then the navigation back. The edit screen's `handleSave` at lines 216-234 is the same code, and the edit form uses this same method |
| InvoiceForm.Utf16Length | app/src/main/java/com/dinyairsadot/taxtracker/feature/invoice/AddInvoiceScreen.kt:62 | Kotlin's `length` counts UTF-16 units: between the number of characters and twice that |
| InvoiceForm.FormattedDatePassesCheck | app/src/main/java/com/dinyairsadot/taxtracker/feature/invoice/AddInvoiceScreen.kt:62-68 | any date in the app's own `uuuu-MM-dd` form passes the date check, and so does a blank date |
| InvoiceForm.RejectedDateIsShort | app/src/main/java/com/dinyairsadot/taxtracker/feature/invoice/AddInvoiceScreen.kt:62 | a rejected date text has between one and seven characters |
| InvoiceForm.SavedTextsAreTrimmed | app/src/main/java/com/dinyairsadot/taxtracker/feature/invoice/AddInvoiceScreen.kt:70 | the saved date and notes are empty exactly when the field was blank, and they never start or end with whitespace |
| InvoiceForm.SaveOutcomeAsWritten | app/src/main/java/com/dinyairsadot/taxtracker/feature/invoice/AddInvoiceScreen.kt:53-68 | the same rules with the amount test as written: the form saves exactly when the parse is present and does not compare `<= 0.0` and the date passes; a rejected amount leaves the date error as it was |
| InvoiceForm.AsWrittenSavesNonNumbers | app/src/main/java/com/dinyairsadot/taxtracker/feature/invoice/AddInvoiceScreen.kt:54-72 | as written, the parses of "NaN" and "Infinity" are saved whenever the date passes, whatever the date error was before; the corrected rules save neither |
| InvoiceForm.CorrectedSaveAgreesOnNumbers | app/src/main/java/com/dinyairsadot/taxtracker/feature/invoice/AddInvoiceScreen.kt:54-68 | on every parse other than NaN and positive infinity, the corrected rules and the rules as written give the same errors and the same decision to save |
| InvoiceForm.AmountAcceptedAsWrittenLetsNonNumbersThrough | app/src/main/java/com/dinyairsadot/taxtracker/feature/invoice/AddInvoiceScreen.kt:54-55 | the amount test as written accepts the parses of "NaN" and "Infinity" |
| InvoiceForm.ValidAmountAgreesOnNumbers | app/src/main/java/com/dinyairsadot/taxtracker/feature/invoice/AddInvoiceScreen.kt:54-60 | the corrected amount test differs from the one as written only on NaN and positive infinity |
| InvoiceForm.SavedAmountIsPositive | app/src/main/java/com/dinyairsadot/taxtracker/feature/invoice/AddInvoiceScreen.kt:54-60 | whatever the parser returns, a save that goes through passes on a finite amount greater than zero |
| InvoiceForm.InvoiceFormState.OnAmountChange | app/src/main/java/com/dinyairsadot/taxtracker/feature/invoice/AddInvoiceScreen.kt:105 | typing an amount changes only the amount text, and no error is cleared |
| InvoiceForm.InvoiceFormState.OnDateChange | app/src/main/java/com/dinyairsadot/taxtracker/feature/invoice/AddInvoiceScreen.kt:116 | typing a date changes only the date text |
| InvoiceForm.InvoiceFormState.OnPaymentStatusChange | app/src/main/java/com/dinyairsadot/taxtracker/feature/invoice/AddInvoiceScreen.kt:129-132 | picking a status changes only the status |
| InvoiceForm.InvoiceFormState.OnNotesChange | app/src/main/java/com/dinyairsadot/taxtracker/feature/invoice/AddInvoiceScreen.kt:138 | typing notes changes only the notes |
| InvoiceForm.EmptyAddFormRejectsSave | app/src/main/java/com/dinyairsadot/taxtracker/feature/invoice/AddInvoiceScreen.kt:45-57 | saving a fresh add form saves nothing and shows the amount error |
| InvoiceDisplay.Title | app/src/main/java/com/dinyairsadot/taxtracker/feature/invoice/InvoiceListScreen.kt:271 | the title is the invoice number unless that is blank, and otherwise starts with "Invoice #" |
| InvoiceDisplay.TitleNeverBlank | app/src/main/java/com/dinyairsadot/taxtracker/feature/invoice/InvoiceDetailsScreen.kt:79 | a title is never blank, and a fallback title names the invoice's own id, which reads back from it |
| InvoiceDisplay.FallbackTitlesDistinguishIds | app/src/main/java/com/dinyairsadot/taxtracker/feature/invoice/InvoiceListScreen.kt:271 | two invoices without a number share a title only when they share an id |
| InvoiceDisplay.StatusLabelInjective | app/src/main/java/com/dinyairsadot/taxtracker/feature/invoice/InvoiceListScreen.kt:279-283 | the three statuses have three different labels |
| InvoiceDisplay.DetailsStatusTextInjective | app/src/main/java/com/dinyairsadot/taxtracker/feature/invoice/InvoiceDetailsScreen.kt:94-98 | the details screen's status text is "Status: " followed by the list's label, and the three statuses give three different texts |
| InvoiceDisplay.ItemLines | app/src/main/java/com/dinyairsadot/taxtracker/feature/invoice/InvoiceListScreen.kt:270-311 | a card starts with the title and the status label and ends with the amount |
| InvoiceDisplay.ItemOptionalLines | app/src/main/java/com/dinyairsadot/taxtracker/feature/invoice/InvoiceListScreen.kt:287-300 | a card has a "Due: " line exactly when there is a due-date text, and a notes line exactly when the notes are present and not blank, showing them |
| InvoiceDisplay.DetailsLines | app/src/main/java/com/dinyairsadot/taxtracker/feature/invoice/InvoiceDetailsScreen.kt:78-100 | the details start with the title, then the amount, then "Status: " and the label |
| InvoiceDisplay.DetailsOptionalLines | app/src/main/java/com/dinyairsadot/taxtracker/feature/invoice/InvoiceDetailsScreen.kt:102-122 | the details have a "Due date: " line exactly when there is a due-date text, and the "Notes:" heading and the notes exactly when the notes are present and not blank |
| InvoiceDisplay.StoredInvoiceLines | app/src/main/java/com/dinyairsadot/taxtracker/feature/invoice/InvoiceListScreen.kt:287-300 | for a stored invoice, both screens show a due line exactly when it has a due date, and its notes exactly when they are present and not blank |
| InvoiceDisplay.ViewFor | app/src/main/java/com/dinyairsadot/taxtracker/feature/invoice/InvoiceListScreen.kt:122-153 | loading wins over an error, an error wins over an empty list, and only a non-empty list is shown as the list itself |
| InvoiceDisplay.LoadAndShow | app/src/main/java/com/dinyairsadot/taxtracker/feature/invoice/InvoiceListScreen.kt:122-153 | a new list screen shows the spinner; after the load it shows the load error, the empty state for a category without invoices, or exactly the category's invoices |
| InvoiceDisplay.InvoiceListDialog.constructor | app/src/main/java/com/dinyairsadot/taxtracker/feature/invoice/InvoiceListScreen.kt:70 | no invoice is pending deletion at first |
| InvoiceDisplay.InvoiceListDialog.RequestDelete | app/src/main/java/com/dinyairsadot/taxtracker/feature/invoice/InvoiceListScreen.kt:151 | a card's delete button marks its invoice as pending, and nothing is deleted yet |
| InvoiceDisplay.InvoiceListDialog.ConfirmDelete | app/src/main/java/com/dinyairsadot/taxtracker/feature/invoice/InvoiceListScreen.kt:163-172 | confirming deletes exactly the pending invoice, clears it, and shows "Invoice deleted" |
| InvoiceDisplay.InvoiceListDialog.DismissDialog | app/src/main/java/com/dinyairsadot/taxtracker/feature/invoice/InvoiceListScreen.kt:158-176 | dismissing or cancelling clears the pending invoice without deleting |
| InvoiceDisplay.DeleteRounds | app/src/main/java/com/dinyairsadot/taxtracker/feature/invoice/InvoiceListScreen.kt:151-176 | after two delete requests, confirming deletes only the second; cancelling deletes nothing |

## Left out

- Compose rendering, coroutines and concurrency are not modelled. Each launched block runs to completion as one method. A repository exception is chosen by a parameter.
- The colour a preset is drawn with, and the result of Android's `parseColor`, are modelled as ARGB integers. The Compose `Color` wrapper, `parseCategoryColorOrDefault` and the top-bar colour helpers are not modelled.
- ColorPalette.ParseCategoryColorOrNull: the `IllegalArgumentException` branch is taken as unreachable, because `parseColor` accepts every text the pattern lets through.
- Floating point is modelled with its special values but without rounding. `toDoubleOrNull` is a parameter of the invoice form. The amount formats `"₪%.2f"` and `"Amount: ${amount}"` are not modelled, so the amount lines hold the value itself.
- Dates.DateText: the number of days in each month is not checked, so the model's date type allows 31 days in every month.
- `Instant.now()`, the default of an image's creation time, is not modelled; the creation time is a required field.
- CategoryForm.NameCheck: lower-casing and `equals(ignoreCase = true)` are modelled for ASCII letters only.
- The navigation library is reduced to a back stack of entries with boolean saved-state maps. Its `Long` argument parsing is modelled as plain decimal with an optional sign, and hexadecimal forms and an `L` suffix are not accepted. Sharing one view-model between destinations is not modelled.
- `viewModel.updateCategory`, which the edit destination calls at Navigation.kt:140, does not exist in the category view-model. The model therefore records the edit form's save effect but changes no store.
- InMemoryInvoiceRepository.kt is not part of this model. The invoice store follows the documentation of `InvoiceRepository`: it starts empty, `addInvoice` requires a new id, and an update of an unknown id is ignored.
- `uiState.categoryName` and `uiState.categoryColorHex`, which the invoice list screen reads, are absent from `InvoiceListUiState`. The title and header colour that use them are left out.
- `CategoryRepository` declares no delete operation, so the category view-model is modelled over the concrete in-memory store.
- The category list screen, its route and `MainActivity` are not modelled. `onCategoryClicked` and `onAddCategoryClicked` have empty bodies and are not modelled either.
- The "Invoice deleted" snackbar and the "category added" message are recorded as effects; their display timing is not modelled.
- InvoiceForm.SaveOutcomeFor: uses the corrected amount test under Findings, so it rejects the parses of "NaN" and "Infinity", which the code as written saves; `InvoiceForm.SaveOutcomeAsWritten` states the rules as written.
- InvoiceForm.InvoiceFormState.HandleSave: the amount test is the corrected one under Findings, not the test as written; `AmountAcceptedAsWritten` keeps the original.

## Findings

| source | as written | input that shows it | evidently intended | confidence | as-written member | corrected member |
|---|---|---|---|---|---|---|
| app/src/main/java/com/dinyairsadot/taxtracker/feature/invoice/AddInvoiceScreen.kt:54-55 | the amount is rejected only when `toDoubleOrNull()` gives null or a value with `amount <= 0.0`; the edit form at lines 217-218 does the same | amount text "NaN" or "Infinity": `toDoubleOrNull` gives NaN or positive infinity, neither compares as `<= 0.0`, and the invoice is saved with that amount | accept only a finite amount greater than zero | likely; not executed | InvoiceForm.AsWrittenSavesNonNumbers | InvoiceForm.SavedAmountIsPositive |

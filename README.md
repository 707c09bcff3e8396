# Product dashboard: the product-list controller and the add-product form

This project models, in Dafny, the logic of a small browser dashboard that
lists, searches, filters, pages and creates products against the public
dummyjson product API. The logic lives in two places:

- the product-list screen (`src/App.jsx`): the search text, the category
  filter, the current page, the fetched list and its total, the loading
  flag and a single notification slot; the handlers that change them; the
  query derived from them; and the figures shown from them (low-stock and
  in-stock counts, page count, "Showing a-b of n", Previous/Next state);
- the "Add New Product" dialog (`src/components/AddProductModal.jsx`): the
  draft record the form edits, its reset, the thumbnail handlers, the fixed
  category list and the label each category is shown with.

Three modules, one per file:

- `Strings` (strings.dfy): the JavaScript text operations the two files rely
  on: `parseInt` with no radix (leading white space, sign, `0x` prefix,
  longest digit run, NaN as `None`), the decimal rendering of a number in a
  template literal, `split`, `join` and the upper-casing of a letter.
- `ProductModal` (product_modal.dfy): `FormData` with a field-wise `With`,
  the initial/reset record `EmptyForm`, the `ModalState` class with the
  dialog's handlers, the category list and `CategoryLabel`, which is proved
  equal to an independent character-by-character definition (`Relabel`).
- `App` (app.dfy): the product record, the query and its URL, the
  page arithmetic, the derived figures, the delete filter and the
  optimistic record, and the `AppState` class whose methods are the
  screen's handlers. Its invariant `Valid()` says that the search text and
  the category are never both set and that the page is at least 1; every
  handler keeps it. The page is not kept within the page count: the
  screen starts on page 1 with a total of 0, and an answer that arrives
  late can shrink the total under a page accepted earlier, so that the
  screen reads "Showing 41-5 of 5", with Previous and Next enabled and
  the pages both ask for rejected (`ShrinkingTotalScenario`,
  `PageOutOfRange`); only the page-1 button or a filter change leads back.

Network answers, the delete confirmation and the file the user picks are
inputs of the handlers. A refetch is two steps: `StartFetch` sets the
loading flag and returns the query for the state at the moment the
debounce timer fires; `FinishFetch` applies an answer when it arrives.
Since answers to overlapping fetches may be applied in any order, the
answer applied last is the one shown, whichever query was issued last
(`OverlappingFetchScenario` shows this).

Two points where the code behaves differently from what a reader of the
screen might expect, and which the model follows:

- the list can hold more than one page of items: a successful add
  prepends to the fetched page;
- the dialog's `await onSubmit(formData)` waits for nothing, because
  `handleAddProduct` starts the create request without returning it; the
  submitting flag is therefore cleared and the form reset before the
  request ends. The model splits the submit at the `await`
  (`BeginSubmit`, `EndSubmit`) and the create request is a separate step
  (`AppState.AddProduct`).

## Model

| member | source | states |
|---|---|---|
| `App.QueryFor` | src/App.jsx:38-49 | a non-empty search text selects the search query even when a category is set; otherwise a non-empty category selects the category query; otherwise the plain listing; every query asks for 10 items and skips (page-1)×10 |
| `App.Url` | src/App.jsx:43-48 | the URL of each query, search text and category inserted unencoded; `App.UrlEndsWithSkip` and `App.UrlTellsPage` state that its decimal offset tells the page |
| `App.UrlTellsPage` | src/App.jsx:40-49 | with the filters fixed, two pages with the same URL are the same page (the decimal offset at the end of the URL determines the page) |
| `App.TotalPages` | src/App.jsx:156 | the page count is the ceiling of total/10: enough pages for every item, and one fewer would not be |
| `App.PageAccepted` | src/App.jsx:90 | the guard of the page change; `App.PageAcceptedIffNonEmpty` states when it holds |
| `App.PageAcceptedIffNonEmpty` | src/App.jsx:89-93 | a page number is accepted exactly when it is at least 1 and at least one item falls on that page |
| `App.NoPageOfEmptyList` | src/App.jsx:90 | with a total of 0 every page change is rejected |
| `App.AppState.PageChange` | src/App.jsx:89-93 | the page becomes n when n is accepted and stays as it was otherwise; nothing else changes; the invariant is kept |
| `App.ShowingRange` | src/App.jsx:294 | the two "Showing a-b" figures; `App.ShowingRangeOfAcceptedPage`, `App.ShowingRangeOfEmptyList` and `App.PageOutOfRange` state what they read |
| `App.PageOutOfRange` | src/App.jsx:294 | page 5 with a total of 5 is not an accepted page and the range reads 41-5; Previous and Next are both enabled there, and the pages they ask for (4 and 6) are both rejected |
| `App.ShowingRangeOfAcceptedPage` | src/App.jsx:294 | on an accepted page the "Showing a-b" figures start at (page-1)×10+1, lie within 1..total, and span as many items as the page holds (10, or the remainder on the last page) |
| `App.ShowingRangeOfEmptyList` | src/App.jsx:294 | with no item on page 1 the range reads 1-0 |
| `App.PreviousDisabled` | src/App.jsx:300 | the Previous button's guard; `App.NavigationOnAcceptedPage` relates it to acceptance |
| `App.NextDisabled` | src/App.jsx:323 | the Next button's guard as written; `App.NavigationOnAcceptedPage` and `App.NextEnabledOnEmptyList` state where it does and does not match acceptance |
| `App.NavigationOnAcceptedPage` | src/App.jsx:298-327 | on an accepted page Previous is enabled exactly when the page before is accepted, and Next exactly when the page after is |
| `App.NextEnabledOnEmptyList` | src/App.jsx:321-327 | as written, Next is enabled on page 1 of an empty list although the page it asks for is rejected |
| `App.NextDisabledWhenLastMatchesAcceptance` | src/App.jsx:321-327 | with Next disabled from the last page on, Next is enabled exactly when the page after is accepted, on every page |
| `App.LowStockCount` | src/App.jsx:152 | the low-stock figure never exceeds the number of listed products (what it counts is stated by the two lemmas below) |
| `App.LowStockCountAppend` | src/App.jsx:152 | the low-stock count of two joined lists is the sum of their counts |
| `App.LowStockCountBounds` | src/App.jsx:152 | the count is 0 exactly when no product has stock below 10, and equals the length exactly when all do |
| `App.InStockCount` | src/App.jsx:153 | the in-stock figure; `App.InStockCountNotClamped` states that it is not clamped |
| `App.InStockCountNotClamped` | src/App.jsx:153 | the in-stock figure, total minus low-stock count, is negative when more listed products are low than the total; `NegativeInStockScenario` reaches -1 through the handlers (an empty listing, then an added product with a stock of 5) |
| `App.RemoveId` | src/App.jsx:141 | the filtered list is no longer than the old one, holds no product with the deleted id, and holds exactly the old products whose id differs |
| `App.RemoveIdAppend` | src/App.jsx:141 | filtering keeps the order: filtering a joined list joins the filtered parts |
| `App.RemoveAbsentId` | src/App.jsx:141 | deleting an id that no product has leaves the list as it was |
| `App.RemoveIdIdempotent` | src/App.jsx:141 | deleting the same id twice gives the same list as deleting it once |
| `App.RemoveIdMultiplicity` | src/App.jsx:141 | every product whose id differs is kept as many times as it was listed |
| `App.RemoveIdLowStock` | src/App.jsx:141 | deleting never raises the low-stock figure |
| `App.AppState.Delete` | src/App.jsx:139-145 | with confirmation the list becomes the old list filtered by id and a success notice is shown; without it nothing changes; the total is never touched |
| `App.AppState.Edit` | src/App.jsx:147-149 | editing changes no state |
| `App.StockOf` | src/App.jsx:103 | the stock sent, `parseInt` with NaN replaced by 0; stated by `App.StockOfNumeral` and `App.StockOfNoDigits` |
| `App.PayloadOf` | src/App.jsx:99-105 | the create request's body; `App.AppState.AddProduct` sends it and `App.OptimisticRecord` states what reaches the list |
| `App.Optimistic` | src/App.jsx:118-124 | the record shown after a create; stated by `App.OptimisticRecord` and `App.OptimisticFromEmptyForm` |
| `App.StockOfNumeral` | src/App.jsx:103 | a stock typed as a numeral (optionally after a minus sign, followed by anything that starts with neither a digit nor, after a lone `0`, with `x` or `X`) is sent as that integer; "0" followed by `x1f` starts a hexadecimal number instead |
| `App.StockOfHexPrefix` | src/App.jsx:103 | a stock typed as "0x1f" is sent as 31: the exception the numeral lemma leaves out |
| `App.StockOfNoDigits` | src/App.jsx:103 | a stock text without digits, such as the empty text, is sent as 0 |
| `App.OptimisticRecord` | src/App.jsx:118-124 | the optimistic record carries the assigned id and the form's texts; an empty brand becomes "Generic Brand" and an empty thumbnail the placeholder image, a non-empty one is kept; a stock that parses to 0 or to NaN becomes 10, any other parsed stock is kept |
| `App.OptimisticFromEmptyForm` | src/App.jsx:118-124 | a record built from an untouched form has the fallback brand, the placeholder thumbnail and a stock of 10 |
| `App.DeleteAfterAdd` | src/App.jsx:127-141 | deleting the id of the record just added removes it again, leaving the old list filtered by that id |
| `App.AppState.AddProduct` | src/App.jsx:97-136 | the parsed form is sent; on success the list becomes the optimistic record followed by the old list, the total is unchanged and a success notice is shown; on failure the list is unchanged and an error notice is shown |
| `App.AppState.constructor` | src/App.jsx:10-28 | the screen starts with an empty list, loading, no notice, no filter, page 1 and a total of 0 |
| `App.AppState.ShowToast` | src/App.jsx:23-25 | the notice slot holds the new message, replacing any earlier one; the kind defaults to success |
| `App.AppState.CloseToast` | src/App.jsx:354 | closing empties the notice slot |
| `App.AppState.ApplyCategoryList` | src/App.jsx:31-36 | the category list is the fetched one on success and stays as it was on failure |
| `App.AppState.SearchChange` | src/App.jsx:75-79 | the search text is the new text, the category is cleared and the page is 1; the filters stay exclusive |
| `App.AppState.CategoryChange` | src/App.jsx:82-86 | the category is the new one, the search text is cleared and the page is 1; the filters stay exclusive |
| `App.AppState.StartFetch` | src/App.jsx:38-49 | a fired refetch sets loading and issues the query for the state at that moment |
| `App.AppState.FinishFetch` | src/App.jsx:51-62 | on success the list and total are replaced by the answer; on failure they stay and the notice is the load-failure error; loading ends either way |
| `App.AppState.OpenModal` | src/App.jsx:195 | the Add Product button opens the dialog |
| `App.AppState.CloseModal` | src/App.jsx:344 | the dialog's close request closes it |
| `Strings.ParseInt` | src/App.jsx:103 | `parseInt` without a radix; stated by the four lemmas below |
| `Strings.ParseIntOfNumeral` | src/App.jsx:103 | `parseInt` reads a decimal numeral back as its value and ignores a trailing part that starts with neither a digit nor, after a lone `0`, with `x` or `X` (which would start a hexadecimal number) |
| `Strings.ParseIntOfHex` | src/App.jsx:103 | after a `0x` prefix `parseInt` reads the following hexadecimal digit run as a base-16 number |
| `Strings.ParseIntOfNegativeNumeral` | src/App.jsx:103 | a leading minus sign negates the value read |
| `Strings.ParseIntSkipsSpace` | src/App.jsx:103 | leading white space does not change what `parseInt` reads |
| `Strings.ParseIntWithoutDigits` | src/App.jsx:103 | a text with no decimal digit reads as NaN |
| `Strings.DecimalValue` | src/App.jsx:43-48 | the decimal numeral put into a URL denotes the number it came from |
| `Strings.JoinSplit` | src/App.jsx:270 | joining the pieces of a split with the same separator gives the text back |
| `ProductModal.FormData.With` | src/components/AddProductModal.jsx:21-24 | the changed field holds the new value and every other field keeps its value |
| `ProductModal.EmptyForm` | src/components/AddProductModal.jsx:5-16 | every field of the initial form is empty except the availability, which is "In Stock" |
| `ProductModal.ModalState.constructor` | src/components/AddProductModal.jsx:5-17 | the dialog opens with the initial form and is not submitting |
| `ProductModal.ModalState.Change` | src/components/AddProductModal.jsx:21-24 | an input change sets that field only |
| `ProductModal.ModalState.BeginSubmit` | src/components/AddProductModal.jsx:26-29 | submitting marks the form as submitting and hands over the current record unchanged |
| `ProductModal.ModalState.EndSubmit` | src/components/AddProductModal.jsx:30-43 | after the hand-over the form is no longer submitting and is back to the initial record |
| `ProductModal.ModalState.ClearThumbnail` | src/components/AddProductModal.jsx:111-117 | the remove-image button empties the thumbnail and changes nothing else |
| `ProductModal.ModalState.ImageChange` | src/components/AddProductModal.jsx:57-66 | with no file nothing changes; with a file the thumbnail becomes its data URL and nothing else changes |
| `ProductModal.Categories` | src/components/AddProductModal.jsx:46-55 | the 24 categories in the order shown; stated by the three lemmas below |
| `ProductModal.CategoriesAreSlugs` | src/components/AddProductModal.jsx:46-55 | the list has 24 entries, each lower-case words joined by single hyphens |
| `ProductModal.CategoriesSorted` | src/components/AddProductModal.jsx:46-55 | each category comes strictly before the next in alphabetical order |
| `ProductModal.CategoriesDistinct` | src/components/AddProductModal.jsx:46-55 | no category appears twice (the list is in strictly increasing order) |
| `ProductModal.CategoryLabel` | src/components/AddProductModal.jsx:201 | the option label of a category; stated by the lemmas below |
| `ProductModal.LabelIsScan` | src/App.jsx:270 | split-capitalise-join equals the left-to-right character scan `Relabel` |
| `ProductModal.CategoryLabelCharacters` | src/components/AddProductModal.jsx:201 | the label has one character per character of the category: a hyphen becomes a space, the first character of each word is upper-cased, every other character is kept |
| `ProductModal.LabelOfOneWord` | src/components/AddProductModal.jsx:201 | a category without a hyphen only has its first letter capitalised |
| `ProductModal.LabelOfTwoWords` | src/components/AddProductModal.jsx:201 | two hyphenated words become the two capitalised words separated by a space |
| `ProductModal.HomeDecorationLabel` | src/components/AddProductModal.jsx:201 | "home-decoration" is shown as "Home Decoration" |

## Findings

| source | as written | input that shows it | evidently intended | confidence | as-written member | corrected member |
|---|---|---|---|---|---|---|
| src/App.jsx:321-327 | Next is disabled only when the current page equals the page count | a fetch that answers a total of 0 (a search with no hit): page 1 of 0 pages, Next is enabled, and its click asks for page 2, which is rejected | Next disabled whenever there is no later page (current page at or past the page count) | not executed; cosmetic, the click itself does nothing | `App.NextEnabledOnEmptyList` | `App.NextDisabledWhenLastMatchesAcceptance` |

## Left out

- The HTTP calls to the product API (listing, search, category listing, category list, create): their answers are inputs (`FetchOutcome`, `AddOutcome`, an optional category list). JSON parsing is not modelled, nor an answer that parses but lacks `products`, `total` or `id`.
- The search text and the category are put into the URL without encoding; `Url` reproduces that, and the model does not say what the server makes of special characters.
- When a refetch fires: `StartFetch` may be called in any state. In the code the fetch depends on the search text, the category and the page, so it fires only when one of them changes (a page change to the page already shown fetches nothing); the model does not capture this.
- The 500 ms debounce timer and its cancellation: a refetch is `StartFetch` on the state at the moment the timer fires; how many refetches a burst of changes produces is not modelled.
- The race between overlapping fetches is not scheduled: the model lets answers be applied in any order, and the last applied wins.
- The toast's automatic dismissal after 3 s (a timer in `src/components/Toast.jsx`) and its styling.
- Floating point: price, discount and rating are kept as the text they are parsed from (`Amount`); `parseFloat`, the total-value figure (sum of price × stock) and currency formatting are not modelled.
- `Strings.Decimal`: JavaScript writes numbers of 10^21 and more in exponent form inside a template literal, and the page and offset arithmetic is done in doubles; the model uses exact integers and plain decimals throughout.
- `Strings.ParseInt`: JavaScript numbers are doubles, so digits beyond 2^53 lose precision; the model reads them exactly.
- `Strings.Upper`: upper-cases only the letters a-z; JavaScript's `toUpperCase` also maps other letters (é to É, ß to SS). Every category of the fixed list is ASCII.
- Texts are sequences of Unicode characters; JavaScript's UTF-16 code units (which `charAt` and `slice` count) are not modelled.
- `handleChange` takes the field name from the input element; the model takes it from the ten fields the form has, so a name outside them cannot occur.
- `FileReader` and the data-URL conversion: the data URL is an input of `ImageChange`, applied in one step although the browser sets it later.
- The form's browser-side validation (`required` on title, price, stock, category and description, and `min="0"` on price, stock and rating) is not modelled: `AddProduct` and `PayloadOf` accept any form text, so `App.OptimisticFromEmptyForm` describes a submission the browser would block.
- The browser `confirm` dialog: a boolean input of `Delete`.
- `App.AppState.AddProduct`: the create request and its answer are one step; the payload is computed when the answer is applied, which gives the same payload since it depends only on the form passed in.
- The category list shown in the screen's filter is whatever the category-list answer holds; nothing is proved about it beyond its label (the same `CategoryLabel`).
- Sidebar navigation and the current view, the "coming soon" view, the product table's markup and status colours, and the fixed page buttons 1, 2, 3 and 125 (the first three call the modelled page change; 125 has no handler).
- The `console.log`/`console.error` calls.

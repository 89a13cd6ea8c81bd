# Storefront and admin panel rules, modelled in Dafny

This project models the rules under a small Next.js storefront and its admin panel:

- **Admin data table.** Page count, the visible slice, page navigation clamped to the valid range, the window of at most five page buttons, the footer, the loading/empty/table precedence, cell resolution and the actions column.
- **Product form.** The slug (lower case, every whitespace run replaced by one `-`), the submit checks that run in a fixed order where the first failure wins, and the payload handed to the page.
- **Products and categories admin pages.** Fetching, the delete-with-confirmation state machine, the stock badge, the thumbnail and the summary totals.
- **Confirmation dialog.** Which callback each event triggers, and the Escape listener that is registered only while the dialog is open.
- **Add-product page.** The uploads run one file at a time and stop at the first failure; then the row to insert is built and the insert's error codes are mapped to messages.
- **Storefront.** The order form's phone pattern and required-field check, the hero carousel's index arithmetic, the category filter and card fallbacks, the landing page's fetch sequence and product normalisation, and the sidebar dropdown toggle.

The backend (Supabase queries, storage and auth) is not modelled. Each call's answer is a parameter:
- `Backend.QueryResponse` or `Backend.MutationResponse` is a `{data, error}` pair, or an exception thrown by the call.
- `NewProductPage.UploadOutcome` is one storage answer per file.

JavaScript's `parseFloat`, `parseInt` and `JSON.parse` are host functions in `Js.Host`:
- `None` stands where JavaScript gives `NaN` or throws.
- JavaScript truthiness, `||` and the truncating `%` are written out explicitly (`Js.Truthy`, `Js.Or`, `HeroSection.JsRem`).

Components that hold state are classes whose methods update their fields. Pure rules are functions, and lemmas relate them.

## Model

| member | source | states |
|---|---|---|
| DataTable.TotalPages | frontend/app/admin/components/DataTable.tsx:51-52 | the page count is the least `r` with `r * pageSize >= totalItems` (the ceiling of the division) |
| DataTable.PageBounds | frontend/app/admin/components/DataTable.tsx:53-54 | the slice `[start, start + pageSize)` starts inside the data on every existing page, is complete before the last page, reaches the end on the last page, and starts past the end beyond it |
| DataTable.CurrentData | frontend/app/admin/components/DataTable.tsx:56-59 | without pagination the whole data; with it, at most `pageSize` rows, row `k` is `data[start + k]`, a full page before the last page, the remainder on the last page, nothing beyond it |
| DataTable.RowOnItsPage | frontend/app/admin/components/DataTable.tsx:51-59 | every row `i` appears on page `i / pageSize + 1`, at position `i % pageSize` |
| DataTable.ClampPage | frontend/app/admin/components/DataTable.tsx:69 | the page chosen lies in `[1, max(1, totalPages)]` and is the valid page nearest to the one requested |
| DataTable.ClampIdempotent | frontend/app/admin/components/DataTable.tsx:69 | clamping twice is clamping once |
| DataTable.ClampKeepsValidPages | frontend/app/admin/components/DataTable.tsx:69 | a page already in range is kept |
| DataTable.Pager.constructor | frontend/app/admin/components/DataTable.tsx:43-48 | the table starts on page 1 with the default page size |
| DataTable.Pager.GoToPage | frontend/app/admin/components/DataTable.tsx:68-70 | the new page is the clamped request |
| DataTable.Pager.GoToFirstPage | frontend/app/admin/components/DataTable.tsx:72 | first goes to page 1 |
| DataTable.Pager.GoToLastPage | frontend/app/admin/components/DataTable.tsx:73 | last goes to `max(1, totalPages)` |
| DataTable.Pager.GoToPreviousPage | frontend/app/admin/components/DataTable.tsx:74 | previous is the clamped `page - 1`, and it stays on page 1 at page 1 |
| DataTable.Pager.GoToNextPage | frontend/app/admin/components/DataTable.tsx:75 | next is the clamped `page + 1`, and it stays put on the last page |
| DataTable.Pager.HandlePageSizeChange | frontend/app/admin/components/DataTable.tsx:62-65 | a new page size always returns to page 1 |
| DataTable.Pager.HandleDataChange | frontend/app/admin/components/DataTable.tsx:61 | the reset the comment promises (see Findings): a data change returns to page 1 |
| DataTable.Pager.PageNumbers | frontend/app/admin/components/DataTable.tsx:78-96 | at most 5 consecutive pages, all in `[1, totalPages]`; every page when there are at most 5; otherwise the run starts at `max(1, cur - 2)` and has `min(5, total - start + 1)` pages (while the current page is in range); a current page in range is always in it |
| DataTable.FooterMatchesBody | frontend/app/admin/components/DataTable.tsx:99-103 | the footer is shown iff pagination is on and there is more than one page; on a page in range, "showing" `start + 1` to `min(end, total)` counts exactly the rows the body shows |
| DataTable.StalePageShowsNoRows | frontend/app/admin/components/DataTable.tsx:56-59 | a page beyond the last page shows no rows |
| DataTable.FirstPageShowsRows | frontend/app/admin/components/DataTable.tsx:56-59 | page 1 of non-empty data shows `min(pageSize, length)` rows |
| DataTable.Render | frontend/app/admin/components/DataTable.tsx:190-206 | loading wins over empty and empty over the table; the error banner is shown iff the error is non-empty, and is that error, whatever the loading flag and the data |
| DataTable.PlainCellIsTruthy | frontend/app/admin/components/DataTable.tsx:239 | a plain field cell is never falsy, and a truthy field is shown as it is |
| DataTable.FalsyFieldsShowNotAvailable | frontend/app/admin/components/DataTable.tsx:239 | every falsy field (`0`, `''`, `null`, `false`, missing) shows `N/A` |
| DataTable.FormatterAndFunctionBypassFallback | frontend/app/admin/components/DataTable.tsx:235-238 | a function accessor is called on the row even when a formatter exists; a formatter's result is shown unchanged, even when falsy |
| DataTable.Activate | frontend/app/admin/components/DataTable.tsx:247-261 | an action with `href` navigates to `href(row)` and its `onClick` is ignored; otherwise `onClick` is called with the row, or nothing happens |
| DataTable.ResolveCell | frontend/app/admin/components/DataTable.tsx:235-239 | a function accessor gives its own result; a key with a formatter gives the formatted field; a key without one gives the field when it is truthy and "N/A" otherwise, so the cell is never falsy |
| DataTable.PaginationControls | frontend/app/admin/components/DataTable.tsx:98-185 | returns a footer iff pagination is on and there are at least 2 pages (the table mounts it only in its non-loading, non-empty branch, DataTable.tsx:278); it shows rows `(page - 1) * size + 1` to `min(page * size, total)`, even on a page past the end; back is disabled exactly on page 1 and forward exactly on the last page |
| DataTable.ResolveCells | frontend/app/admin/components/DataTable.tsx:230-241 | one cell per column, in column order |
| DataTable.ActivateAll | frontend/app/admin/components/DataTable.tsx:245-268 | one button per action, in order |
| DataTable.HeaderRow | frontend/app/admin/components/DataTable.tsx:212-224 | the column headers, plus "Actions" iff there are actions |
| DataTable.BodyRow | frontend/app/admin/components/DataTable.tsx:228-272 | each row lines up with the header: the column cells, then the actions cell iff there are actions |
| DataTable.TwentyThreeRows | frontend/app/admin/components/DataTable.tsx:51-75 | 23 rows at 10 per page make 3 pages of 10, 10 and 3 rows, and page 5 clamps to 3 |
| DataTable.ShrinkStrandsPage | frontend/app/admin/components/DataTable.tsx:47-99 | as written: 10 rows seen on page 2 show a table with no rows and no footer |
| DataTable.ShrinkShowsBackwardsFooter | frontend/app/admin/components/DataTable.tsx:47-103 | as written: 15 rows seen on page 3 show no rows under a footer reading "Showing 21 to 15 of 15" |
| ProductForm.Slug | frontend/app/admin/products/components/productform.tsx:89 | a slug has no whitespace and no upper-case letter |
| ProductForm.SlugIdempotent | frontend/app/admin/products/components/productform.tsx:89 | the slug of a slug is itself |
| ProductForm.SlugOfSingleWord | frontend/app/admin/products/components/productform.tsx:89 | a name without whitespace is only lower-cased |
| ProductForm.CollapseJoinsWords | frontend/app/admin/products/components/productform.tsx:89 | a whitespace run between two words becomes a single `-` |
| ProductForm.SlugOfTwoWords | frontend/app/admin/products/components/productform.tsx:89 | two words separated by whitespace give `lower(a) + "-" + lower(b)` |
| ProductForm.SlugExample | frontend/app/admin/products/components/productform.tsx:89 | "Red Shoes" gives "red-shoes" |
| ProductForm.UpdateTouchesOnlyItsField | frontend/app/admin/products/components/productform.tsx:64-83 | a field update sets that field and leaves every other field unchanged |
| ProductForm.FileNames | frontend/app/admin/products/components/productform.tsx:76 | the selected files' names, in order |
| ProductForm.Checks | frontend/app/admin/products/components/productform.tsx:92-129 | five checks, in the handler's order (required fields, price, sale price, quantity, meta), each with its own rejection; all pass iff the five acceptance conditions hold |
| ProductForm.FirstFailure | frontend/app/admin/products/components/productform.tsx:92-129 | there is no rejection iff every check passes, and a failing first check is the rejection |
| ProductForm.FirstFailureIsFirst | frontend/app/admin/products/components/productform.tsx:92-129 | a rejection is the first failing check in order, and there is none iff every check passes |
| ProductForm.SubmitGate | frontend/app/admin/products/components/productform.tsx:92-129 | the form is submitted iff all five checks pass; a missing name, price or category is reported before anything else, and a bad price before the later checks |
| ProductForm.PriceExamples | frontend/app/admin/products/components/productform.tsx:97-119 | a price of "0" is rejected as invalid, and "19.99" on a named, categorised product passes both the required and the price checks |
| ProductForm.Form.constructor | frontend/app/admin/products/components/productform.tsx:29-42 | the form starts from the initial data or all empty, with no files |
| ProductForm.Form.HandleInputChange | frontend/app/admin/products/components/productform.tsx:64-69 | sets the named text field only |
| ProductForm.Form.HandleSelectChange | frontend/app/admin/products/components/productform.tsx:81-83 | sets the category only |
| ProductForm.Form.HandleFileChange | frontend/app/admin/products/components/productform.tsx:71-79 | a file list replaces the selected files and the images field with their names; no list changes nothing |
| ProductForm.Form.HandleSubmit | frontend/app/admin/products/components/productform.tsx:85-141 | rejects with the first failing check; otherwise submits once, with the parsed price (> 0), sale price and quantity dropped when empty or zero, the file names or none, the parsed meta or null, and the slug |
| ProductsPage.StockStatusOf | frontend/app/admin/products/page.tsx:141-152 | quantity 0 is out of stock, any other quantity up to 10 (negatives included) is low, above 10 is in stock |
| ProductsPage.TotalStock | frontend/app/admin/products/page.tsx:279 | one product contributes its quantity, a missing one counting as 0 (with TotalsAppend this fixes the sum); the total is non-negative when every quantity is, and 0 when every product has none |
| ProductsPage.TotalOrders | frontend/app/admin/products/page.tsx:285 | one product contributes its order count, a missing one counting as 0 (with TotalsAppend this fixes the sum); the total is non-negative when every count is, and 0 when every product has none |
| ProductsPage.OutOfStockCount | frontend/app/admin/products/page.tsx:291 | at most the number of products; 0 when every product has stock; all of them when none has |
| ProductsPage.SummaryCards | frontend/app/admin/products/page.tsx:268-291 | the summary is shown iff loading is over and there is a product; it counts every product, and its out-of-stock figure never exceeds that count |
| ProductsPage.TotalsAppend | frontend/app/admin/products/page.tsx:279-285 | total stock and total orders add up over any split of the list |
| ProductsPage.TotalStockSplits | frontend/app/admin/products/page.tsx:279 | the stock of the products a filter keeps and of those it drops sum to the total stock |
| ProductsPage.OutOfStockCountMatchesBadges | frontend/app/admin/products/page.tsx:202-291 | the out-of-stock count is the number of rows whose badge reads "Out of Stock", and is at most the number of products |
| ProductsPage.ShownImage | frontend/app/admin/products/page.tsx:114-119 | an image is shown iff images is a non-empty array with a truthy first element, and it is that element |
| ProductsPage.WithoutIdRemovesExactly | frontend/app/admin/products/page.tsx:88 | the filter keeps exactly the products with another id, in order, and leaves a list without that id unchanged |
| ProductsPage.ProductsPage.constructor | frontend/app/admin/products/page.tsx:19-23 | the page starts empty, loading, with the modal closed and nothing selected |
| ProductsPage.ProductsPage.FetchProducts | frontend/app/admin/products/page.tsx:36-67 | a `null` list becomes empty; an error keeps the list and sets the message; loading ends on every path |
| ProductsPage.ProductsPage.OpenDeleteModal | frontend/app/admin/products/page.tsx:100-103 | sets the selection and opens the modal |
| ProductsPage.ProductsPage.CloseModal | frontend/app/admin/products/page.tsx:106-109 | clears both |
| ProductsPage.ProductsPage.HandleDeleteProduct | frontend/app/admin/products/page.tsx:73-97 | no selection is a no-op; only success removes the selected id; every outcome closes the modal and clears the selection; the modal is open exactly while a product is selected |
| CategoriesPage.DeleteFailureMessage | frontend/app/admin/categories/page.tsx:74-78 | code `23503` gives the "referenced by products" message, and every other code the generic one |
| CategoriesPage.WithoutIdRemovesExactly | frontend/app/admin/categories/page.tsx:82 | the filter keeps exactly the categories with another id, in order |
| CategoriesPage.CategoriesPage.constructor | frontend/app/admin/categories/page.tsx:18-22 | the page starts empty, loading, with the modal closed |
| CategoriesPage.CategoriesPage.FetchCategories | frontend/app/admin/categories/page.tsx:35-57 | a `null` list becomes empty; an error keeps the list; loading ends on every path |
| CategoriesPage.CategoriesPage.OpenDeleteModal | frontend/app/admin/categories/page.tsx:94-97 | sets the selection and opens the modal |
| CategoriesPage.CategoriesPage.CloseModal | frontend/app/admin/categories/page.tsx:100-103 | clears both |
| CategoriesPage.CategoriesPage.HandleDeleteCategory | frontend/app/admin/categories/page.tsx:63-91 | no selection is a no-op; failure keeps the list and reports the mapped code; success removes the selected id; the modal closes and the selection clears on every outcome |
| ConfirmationModal.Response | frontend/app/admin/components/ConfirmationModal.tsx:37-84 | only the confirm button confirms; X and cancel close; Escape closes only while the listener is registered; a backdrop click closes only when the dialog itself is the target |
| ConfirmationModal.ConfirmationModal.constructor | frontend/app/admin/components/ConfirmationModal.tsx:23-54 | omitted labels become "Confirm" and "Cancel"; the listener is registered iff open |
| ConfirmationModal.ConfirmationModal.SetIsOpen | frontend/app/admin/components/ConfirmationModal.tsx:44-54 | after the effect re-runs, the listener is registered exactly when open |
| ConfirmationModal.ConfirmationModal.Unmount | frontend/app/admin/components/ConfirmationModal.tsx:53 | the cleanup leaves no listener |
| ConfirmationModal.ConfirmationModal.Handle | frontend/app/admin/components/ConfirmationModal.tsx:45-84 | an event ends in the callback `Response` gives for the current listener state |
| NewProductPage.Uploads | frontend/app/admin/products/new/page.tsx:66-94 | when every upload succeeds there is one path per file, and each path is its file's public URL |
| NewProductPage.UploadsCharacterized | frontend/app/admin/products/new/page.tsx:66-94 | the uploads succeed iff every file uploads and has a public URL, and then the paths are the URLs in file order; otherwise the first failing file decides the outcome |
| NewProductPage.UploadImages | frontend/app/admin/products/new/page.tsx:66-94 | the loop's result is the reference `Uploads` |
| NewProductPage.BuildInsertRow | frontend/app/admin/products/new/page.tsx:97-109 | empty description and meta description become null; a sale price the form dropped stays null and a dropped quantity becomes 0; orders are 0; images are the uploaded URLs or null; a truthy meta is parsed again, and a failed parse means no row |
| NewProductPage.InsertErrorMessage | frontend/app/admin/products/new/page.tsx:116-124 | code `42501` gives the permission message; any other code gives "Failed to add product: " and the backend message |
| NewProductPage.NewProductPage.constructor | frontend/app/admin/products/new/page.tsx:15-18 | no categories, no error, loading, no navigation |
| NewProductPage.NewProductPage.FetchCategories | frontend/app/admin/products/new/page.tsx:35-55 | a `null` list becomes empty; an error keeps the list; loading ends on every path |
| NewProductPage.NewProductPage.HandleSubmit | frontend/app/admin/products/new/page.tsx:61-137 | an insert happens iff every upload succeeded and the row could be built; the inserted images are null iff no file was selected, and otherwise hold one URL per file, in file order; each failure sets its message; only a successful insert navigates to `/admin/products` |
| OrderForm.WithField | frontend/app/product/page.tsx:19 | an edit sets its field and leaves the others unchanged |
| OrderForm.DigitsToEndCharacterized | frontend/app/product/page.tsx:23 | `[0-9]{k}$` matches exactly the strings of `k` digits |
| OrderForm.PhoneMatchesCharacterized | frontend/app/product/page.tsx:23 | a phone number matches iff it has 10 characters, starts with 05, 06 or 07, and the other 8 are digits |
| OrderForm.PhoneError | frontend/app/product/page.tsx:24-28 | the phone error is empty iff the number matches, and is the format message otherwise |
| OrderForm.RequiredErrors | frontend/app/product/page.tsx:34-39 | exactly the empty fields get their "required" message |
| OrderForm.SubmitIgnoresPhoneFormat | frontend/app/product/page.tsx:34-44 | every form with all five fields filled in has no submit errors, so submit never looks at the phone pattern |
| OrderForm.FilledPhoneCanMismatch | frontend/app/product/page.tsx:23 | a non-empty phone number ("123") that the pattern rejects exists, so a filled form can pass submit with a malformed phone |
| OrderForm.OrderForm.constructor | frontend/app/product/page.tsx:7-14 | all fields empty, no errors |
| OrderForm.OrderForm.HandleInputChange | frontend/app/product/page.tsx:17-30 | sets the field; a phone edit sets only the phone error, other edits leave the errors unchanged |
| OrderForm.OrderForm.HandleSubmit | frontend/app/product/page.tsx:32-51 | with an empty field, the errors become exactly the required messages and the form stays; otherwise the order is taken, the form is reset and the errors cleared |
| HeroSection.JsRemIsTruncatingRemainder | frontend/app/home/components/HeroSection.tsx:28-32 | `JsRem` is JavaScript's `%`: the remainder of a division truncated toward zero, smaller than the divisor in magnitude and never of the opposite sign to the dividend |
| HeroSection.NextSlide | frontend/app/home/components/HeroSection.tsx:27-29 | from a valid index, the next index is valid and wraps from the last slide to 0 |
| HeroSection.PrevSlide | frontend/app/home/components/HeroSection.tsx:31-33 | from a valid index, the previous index is valid and wraps from 0 to the last slide |
| HeroSection.PrevNextInverse | frontend/app/home/components/HeroSection.tsx:27-33 | previous undoes next and next undoes previous |
| HeroSection.NextTimesIsShift | frontend/app/home/components/HeroSection.tsx:22-28 | `k` steps forward from `i` land on `(i + k) mod n` |
| HeroSection.NextTimes | frontend/app/home/components/HeroSection.tsx:22-28 | any number of steps forward from a valid index stays on a valid index |
| HeroSection.FullCycle | frontend/app/home/components/HeroSection.tsx:22-28 | `n` steps forward return to the start |
| HeroSection.Offset | frontend/app/home/components/HeroSection.tsx:42 | the offset is 0 exactly for the current slide, and negative exactly for the slides before it |
| ProductsSection.FilteredProducts | frontend/app/home/components/ProductsSection.tsx:7-9 | `'all'` gives the list unchanged; any other selection gives the category filter, never longer than the list |
| ProductsSection.FilteredProductsExactly | frontend/app/home/components/ProductsSection.tsx:9 | a selection keeps exactly the products of that category, in order |
| ProductsSection.FilterTwiceIsOnce | frontend/app/home/components/ProductsSection.tsx:7-9 | filtering twice by the same selection is filtering once |
| ProductsSection.DisplayPrice | frontend/app/home/components/ProductsSection.tsx:74 | a missing or zero sale price shows the price, and any other sale price shows itself |
| ProductsSection.CardImage | frontend/app/home/components/ProductsSection.tsx:56 | the first image of a non-empty list, or the placeholder when there is none |
| ProductsSection.CategoryLabel | frontend/app/home/components/ProductsSection.tsx:42 | the same length, the first letter capitalised, the rest unchanged |
| ProductsSection.AllLabel | frontend/app/home/components/ProductsSection.tsx:42 | the "all" button reads "All" |
| ProductsSection.Render | frontend/app/home/components/ProductsSection.tsx:11-78 | while loading only the message shows; afterwards there is one card per filtered product, in order |
| HomePage.MapProduct | frontend/app/home/page.tsx:79-84 | falsy images become the placeholder list and a falsy category becomes "uncategorized"; everything else is kept |
| HomePage.MapProducts | frontend/app/home/page.tsx:79 | one mapped product per fetched product, in order |
| HomePage.MappedProductsAreComplete | frontend/app/home/page.tsx:82-83 | every mapped product has truthy images and a non-empty category |
| HomePage.FallbackCardGetsObject | frontend/app/home/page.tsx:82 | a product without images gets the `{url}` object as its card `src` |
| HomePage.CategoryList | frontend/app/home/page.tsx:87 | `'all'` followed by the fetched names in order |
| HomePage.FailureMessage | frontend/app/home/page.tsx:68-89 | there is a message iff the query errored or threw; it is the error's text, or "Failed to fetch data" when that is empty |
| HomePage.FetchError | frontend/app/home/page.tsx:58-93 | a failed fetch always stores a non-empty message: the products failure first, then the categories failure, then the `null`-data `TypeError` |
| HomePage.StoreLanding.constructor | frontend/app/home/page.tsx:50-56 | slide 0, selection `'all'`, categories `['all']`, loading, no error |
| HomePage.StoreLanding.FetchData | frontend/app/home/page.tsx:58-93 | a products failure stops before categories are requested; a failure sets the error and changes nothing else; `null` data throws, the categories one after the products were set; whenever the fetch does not run to its end the error is `FetchError` and the page renders the error screen; loading ends on every path |
| HomePage.StoreLanding.SelectCategory | frontend/app/home/components/ProductsSection.tsx:39 | a category button sets the selection |
| HomePage.StoreLanding.NextSlide | frontend/app/home/components/HeroSection.tsx:27-29 | the landing page's index steps forward and stays on a slide |
| HomePage.StoreLanding.PrevSlide | frontend/app/home/components/HeroSection.tsx:31-33 | the index steps back and stays on a slide |
| HomePage.StoreLanding.SelectSlide | frontend/app/home/components/HeroSection.tsx:86 | a dot sets the index to its own position, which stays on a slide |
| HomePage.Render | frontend/app/home/page.tsx:98-119 | a non-empty error shows only the error screen; otherwise the grid is the section's render |
| HomePage.FailedFetchShowsError | frontend/app/home/page.tsx:89-104 | whichever way the fetch fails (either query erroring or throwing, or either result `null`), the page shows the error screen with that message |
| SidebarItem.Toggled | frontend/app/admin/dashboard/components/SidebarItem.tsx:59-63 | the dropdown flips only when there are sub-items and the sidebar is open |
| SidebarItem.ToggleTwice | frontend/app/admin/dashboard/components/SidebarItem.tsx:61 | toggling twice under the same conditions restores the state |
| SidebarItem.Render | frontend/app/admin/dashboard/components/SidebarItem.tsx:67-114 | without sub-items the item is a plain link; otherwise the submenu is shown iff the sidebar and the dropdown are both open |
| SidebarItem.SidebarItem.constructor | frontend/app/admin/dashboard/components/SidebarItem.tsx:57 | the dropdown starts closed |
| SidebarItem.SidebarItem.ToggleDropdown | frontend/app/admin/dashboard/components/SidebarItem.tsx:59-63 | the new state is the guarded toggle |
| SidebarItem.LinkNeverOpens | frontend/app/admin/dashboard/components/SidebarItem.tsx:60-114 | an item without sub-items never opens |

## Left out

- The backend, storage and auth calls (`getSession`, `getUser`, `select`, `insert`, `delete`, `upload`, `getPublicUrl`) are not modelled; their answers are parameters. The auth checks and their redirects are also left out.
- `parseFloat`, `parseInt` and `JSON.parse` are host functions given as parameters. The model does not say which strings they accept. `NaN` and infinities are not represented.
- The form sends the price as `priceValue.toString()` and the add page parses it back with `parseFloat`. The model passes the number itself and assumes the round trip is exact.
- The add page calls `JSON.parse` on the meta value the form already parsed. This is `Host.reparseJson`, which may fail; a failure goes to the catch.
- `toFixed(2)` prices, the random ratings, `toLocaleDateString`, and `Date.now()` in upload file names are presentation or non-determinism and are not modelled.
- `ProductForm.IsJsWhitespace` and `ProductForm.ToLower`: `toLowerCase` is modelled for ASCII letters only. Non-ASCII case mapping is not represented.
- `ProductsSection.CategoryLabel`: `toUpperCase` is modelled for ASCII letters only.
- The edit-mode effect that reloads `initialData` into the form is not modelled; the form starts from `initialData` as given.
- The carousel's `setInterval` timer is scheduling. It applies the same updater as "next", so `HeroSection.NextTimes` covers its steps. With no slides, `% 0` gives `NaN`; `NextSlide` and `PrevSlide` require at least one slide.
- Overlapping async fetches and handlers are not modelled. So are the `finally` blocks racing with unmounting and the stale-closure reads of state. Each handler runs to completion on the latest state.
- NewProductPage.NewProductPage.HandleSubmit: the storage answers are a sequence with one entry per selected file. The file contents and the generated storage paths never reach the model, so only the count and the order of the URLs are tied to `data.files`.
- `HomePage.StoreLanding.FetchData`: a `null` result is a `TypeError` whose message is a fixed text (the V8 wording). Other engines word it differently.
- `ConfirmationModal.Response`: the backdrop handler is modelled as written, but `handleBackdropClick` is never attached and `dialogRef` is never bound to an element. In the running component no backdrop click closes the dialog. The buttons also render whatever `isOpen` is; only the listener follows `isOpen`.
- `DataTable.Pager.PageNumbers`: the start of the window and the current page's membership are stated only while the current page is in `[1, totalPages]`. Outside that range (see Findings) only the bounds and consecutiveness are stated.
- Toasts are modelled only as the returned `Notice`. `console.log`, CSS classes and layout are not modelled. The navbar, footer, sidebar container, header and dashboard shell have no rules to model.
- The add page's `error` is only ever set and never cleared on a new attempt; the model follows the code.

## Findings

| source | as written | input that shows it | evidently intended | confidence | as-written member | corrected member |
|---|---|---|---|---|---|---|
| frontend/app/admin/components/DataTable.tsx:61-65 | the comment says the page resets when data changes, but only a page-size change resets it | 11 rows, page size 10, on page 2; one row is deleted, leaving 10 rows: page 2 of 1 shows a table with no rows and no pagination footer to leave it; likewise 25 rows on page 3 cut to 15 show no rows under "Showing 21 to 15 of 15" (DataTable.ShrinkShowsBackwardsFooter) | a change of data returns to page 1 | not executed | DataTable.ShrinkStrandsPage | DataTable.Pager.HandleDataChange |

# Sales-Management frontend: a Dafny model of its pages, forms and API client

This project models the browser side of a small sales-management system. It covers:

- **The three list screens:** customers, salesmen and invoices. Each screen has a row store, and each renders the same generic data table. That table has row selection, a text-filter toolbar, a column-visibility menu and bulk delete.
- **The five entry forms:** add customer, add invoice, add salesman, add item and register. Each form has its validation rules, the messages those rules show, the payload it sends, and what happens to the form on success and on failure.
- **The sign-in page**, with the token it stores and the navigation it schedules.
- **The overlay sidebar:** its menu, which entries are highlighted, its open, close and group states, and the light/dark theme kept in browser storage.
- **The route guard** that keeps protected pages from rendering without a stored token.
- **The customers API client:** the requests it builds (URL, verb, headers, JSON or multipart body), and how it turns a reply into a resolved value or a thrown error.

## Modelling approach

**JavaScript values.** Values are `JsValues.Value`: undefined, null, booleans, integers, strings, arrays, objects (as ordered entries) and files.

- Property access, truthiness, `??`, strict equality and `String(x)` are written out as functions.
- A thrown error is an object whose `message` is known, for example `"Cannot read properties of undefined (reading 'token')"`.

**Effects.** Effects are data:

- an awaited call is a `Settled` outcome (resolved or thrown), passed in as a parameter;
- a toast is a `Notice`;
- a scheduled `router.push` is a `Navigation`, which carries its delay;
- browser storage is the class `Effects.BrowserStorage`, whose `SetItem` stores the string form of the value, as `localStorage.setItem` does.

**Pages and components.** Each page or component whose state React updates in place is a class. Its fields are that state: form values, loading flags, the selection, the column filters and so on. Each event handler is a method whose `ensures` clauses give the whole new state in terms of the old state.

**Validation.** The validation schemas are pure functions from values to a list of issues. Each list has the schema's own messages, in schema order. Each is proved empty exactly when the values are valid. The message a field displays is the first issue for that field (`FormRules.ShownMessage`).

**The table library.** Filtering, sorting and pagination happen inside the table library, so the model takes their outcome as parameters:

- whether a row passes the current filters;
- which row indices form the current page.

Rows are identified by their index, which is the library's default row id.

## Observations

The model makes these behaviours of the code explicit. Each one is proved as a lemma or stated in a contract.

- **`filterableColumns` does nothing.** The customers and salesmen screens pass this prop, but the table does not read it. Those screens get no filter toolbar; only the invoices screen, which passes `filterColumn`, gets one (`CustomersScreen.Mount`, `SalesmenScreen.Mount`).
- **The selection is cleared even when the delete fails.** After the bulk-delete handler returns, the table clears the selection. Each screen catches its own API failure, so the selection is cleared even though no rows were removed (`DataTables.DataTable.HandleBulkDelete`).
- **Salesmen with an `id` survive a bulk delete.** The table sends `id ?? code` for each selected row, but the salesmen screen removes rows by `code`. A salesman record that carries an `id` therefore stays in the list after a successful bulk delete (`SalesmenScreen.BulkDeleteOfRecordWithId`).
- **The export URL is `"undefined/export"`.** The view options read an `Export` prop that the table never passes (`DataTableViewOptions.ExportUrl`).
- **The status dot compares strictly.** It is green only when `is_inactive` is the number `0`. The boolean `false` and the text `"0"` both show red (`SalesmenScreen.StatusIsStrict`).
- **A fractional quantity is accepted but sent as `0`.** The invoice form's quantity rule accepts any positive number, but the payload applies `parseInt`, so `0.5` goes out as `0` (`AddInvoice.FractionalQuantitySentAsZero`).
- **A picked customer fails validation when its id is a number.** Picking a customer stores `customer.id`. The schema requires a string, so a numeric id is rejected with "Expected string, received number" (`AddInvoice.NumericCustomerIdRejected`).
- **Cancel restores the last submit's values and keeps the photo preview.** `form.reset(values)` makes those values the new defaults. So after a successful submit, Cancel restores the defaults of that submit, with that day's date. On the customer form, Cancel keeps the photo preview (`AddCustomer.CustomerForm.Cancel`).
- **The sign-in page writes `"token"`, but the guard reads `"Token"`.** The sign-in API client also writes `"Token"` itself (`frontend/src/api/UserApi.js:26`), so the guard passes after a sign-in. The page's own write is read only by the export helper (`RouteGuard.PageTokenWriteIsNotGuardToken`, `RouteGuard.PageSignInThenGuard`).
- **A failed request with a `null` body throws a TypeError.** The clients read `errorData.message` without a check, so a `null` JSON body shows "Cannot read properties of null (reading 'message')" instead of the fallback; an empty or non-JSON body throws the parse error, even on an ok reply (`CustomersApiClient.UnreadableBodiesThrow`).
- **The export helper reads `"token"`.** It throws "No auth token found" unless the key the sign-in page writes is set, while every other client reads `"Token"` (`DataTableViewOptions.ExportToExcel`).
- **Register and sign-in failures always show the fallback message.** The user API client rethrows `error.message`, which is a string, not an error object. A string has no `message`, so these pages show their fallback text (`Effects.ThrownStringShowsFallback`).

## Model

| member | source | states |
|---|---|---|
| Effects.ErrorDescription | frontend/src/app/customers/addCustomer/page.js:151-155 | The toast description is the thrown value's `message` when that is truthy, else the page's fallback text |
| Effects.ThrownStringShowsFallback | frontend/src/api/UserApi.js:28-30 | A thrown string (no `message`) always shows the fallback |
| Effects.ThrownErrorShowsMessage | frontend/src/api/CustomersApi.js:41-44 | An `Error` with a non-empty message shows that message |
| Effects.BrowserStorage.GetItem | frontend/src/app/components/ProtectedRoute.js:14 | Reading a key gives its stored string, or nothing when the key is absent |
| Effects.BrowserStorage.SetItem | frontend/src/app/login/page.js:45 | Storing puts the value's string form under the key and leaves every other key as it was |
| JsValues.IntToStringInjective | frontend/src/app/customers/page.js:13-15 | Distinct integers have distinct decimal forms, so `String` comparison of numbers is equality |
| JsValues.FindFirst | frontend/src/app/customers/addCustomer/page.js:207 | `find` by a field: nothing exactly when no record matches, else the first record whose field strictly equals the value |
| JsValues.FindFirstAt | frontend/src/app/customers/addCustomer/page.js:207 | A record no earlier record matches is the one found by its own field value |
| Text.Trim | frontend/src/app/customers/addCustomer/page.js:37 | `trim()` leaves no whitespace at either end and never lengthens the text |
| Text.TrimIsSlice | frontend/src/app/customers/addCustomer/page.js:37 | The trim is a slice of the input, and only whitespace was cut off on each side |
| Text.TrimKeepsOut | frontend/src/app/customers/addCustomer/page.js:37 | Trimming never brings in a character the text did not have |
| Text.TrimOfTrimmed | frontend/src/app/customers/addCustomer/page.js:37 | Trimming text that has no surrounding whitespace changes nothing |
| Text.Split | frontend/src/app/customers/addCustomer/page.js:36 | `split(",")` gives at least one piece and no piece contains the separator |
| Text.JoinSplit | frontend/src/app/customers/addCustomer/page.js:36 | Joining the pieces of a split with the separator gives back the original text |
| Text.SplitJoin | frontend/src/app/customers/addCustomer/page.js:36 | Splitting a join of separator-free pieces gives back the pieces |
| Text.ToLowerIdempotent | frontend/src/app/customers/addCustomer/page.js:228 | Lower-casing twice is lower-casing once |
| FormRules.Check | frontend/src/app/salesmen/addSalesmen/page.js:22 | A rule gives no issue exactly when it holds, else one issue with its path and message |
| FormRules.ParsedType | frontend/src/app/invoices/addInvoice/page.js:64 | The type zod names in its message: "number" for a number, "null" for null, "object" for an object or a file |
| FormRules.TypeMessage | frontend/src/app/invoices/addInvoice/page.js:64 | zod's type-mismatch message: "Required" for `undefined`, else "Expected <type>, received <parsed type>" |
| FormRules.MinLength | frontend/src/app/salesmen/addSalesmen/page.js:18-21 | `min(n)` gives no issue exactly when the text has at least n characters |
| FormRules.TextAtLeast | frontend/src/app/customers/addCustomer/page.js:41 | `undefined` fails with "Required"; any other non-string fails with "Expected string, received <type>"; a string passes exactly when long enough, else shows the rule's message |
| FormRules.DatePicked | frontend/src/app/customers/addCustomer/page.js:28 | `z.date()` passes exactly when a date is present |
| FormRules.PositiveNumber | frontend/src/app/invoices/addInvoice/page.js:55-57 | A coerced number passes exactly when it is a number above zero |
| FormRules.NonnegativeNumber | frontend/src/app/customers/addCustomer/page.js:29 | A coerced number passes exactly when it is a number not below zero |
| FormRules.ShownMessage | frontend/src/app/customers/addCustomer/page.js:55 | A field shows nothing when it has no issue, else the message of its first issue |
| FormRules.ShownMessageOfAppend | frontend/src/app/customers/addCustomer/page.js:55 | The shown message of two issue lists joined is the first list's when it has one, else the second's |
| ColumnDefs.SelectColumn | frontend/src/app/customers/page.js:65-88 | The checkbox column is neither sortable nor hideable |
| ColumnDefs.DataColumn | frontend/src/app/customers/page.js:89-96 | A field column is hideable and sortable exactly when its definition enables sorting |
| ColumnDefs.ActionsColumn | frontend/src/app/customers/page.js:196-205 | The row-actions column has no header, can be hidden and cannot be sorted |
| ColumnDefs.ColumnNamed | frontend/src/app/components/data-table/data-table-toolbar.jsx:17 | `getColumn(id)` finds a column exactly when one has that id, and the one found has it |
| ColumnDefs.FilterEquals | frontend/src/app/customers/page.js:13-15 | A row passes exactly when the string forms of cell and filter value are equal |
| ColumnDefs.FilterEqualsNumbers | frontend/src/app/customers/page.js:13-15 | Two numbers match exactly when they are equal |
| ColumnDefs.FilterEqualsTypedNumber | frontend/src/app/customers/page.js:13-15 | A typed text matches a numeric cell exactly when it is the number's decimal form |
| ColumnDefs.FilterEqualsSymmetric | frontend/src/app/customers/page.js:13-15 | The match does not depend on which side is the cell |
| ColumnDefs.FilterEqualsIsTextual | frontend/src/app/customers/page.js:13-15 | A leading zero or plus sign makes the same number fail to match |
| RowStores.Filter | frontend/src/app/customers/page.js:41-43 | `filter` never lengthens the list |
| RowStores.FilterIsSubsequence | frontend/src/app/customers/page.js:41-43 | The rows a filter keeps stay in their original order |
| RowStores.FilterCounts | frontend/src/app/customers/page.js:54-56 | A filter keeps each accepted row with its full multiplicity and drops each rejected one |
| RowStores.FilterMembers | frontend/src/app/customers/page.js:54-56 | A row survives exactly when it was present and accepted |
| RowStores.FilterIdempotent | frontend/src/app/customers/page.js:41-43 | Filtering twice with the same test is filtering once |
| RowStores.WithoutKeyExact | frontend/src/app/customers/page.js:41-43 | After a single delete exactly the rows with that key are gone, the rest keep multiplicity and order |
| RowStores.WithoutKeysExact | frontend/src/app/customers/page.js:54-56 | After a bulk delete exactly the rows whose key is listed are gone, the rest keep multiplicity and order |
| RowStores.RowActionRemovesRow | frontend/src/app/customers/page.js:202 | Deleting by a row's own key removes that row |
| RowStores.BulkOfOneIsSingle | frontend/src/app/customers/page.js:51-56 | A bulk delete of one key equals a single delete of it |
| RowStores.BulkDeleteComposes | frontend/src/app/customers/page.js:54-56 | Bulk-deleting `a + b` equals bulk-deleting `a` then `b` |
| RowStores.RowsFromResponse | frontend/src/app/customers/page.js:28-32 | The list is `data.<entity>.data` when that is an array, else empty |
| RowStores.RowStore.constructor | frontend/src/app/customers/page.js:17 | The list starts empty |
| RowStores.RowStore.Fetch | frontend/src/app/customers/page.js:25-36 | A response replaces the list; a thrown call leaves it unchanged |
| RowStores.RowStore.DeleteOne | frontend/src/app/customers/page.js:38-49 | Success is reported exactly on resolution; only then are the rows with that key removed |
| RowStores.RowStore.BulkDelete | frontend/src/app/customers/page.js:51-62 | Success is reported exactly on resolution; only then are the rows with listed keys removed |
| DataTableToolbar.FilterValueOf | frontend/src/app/components/data-table/data-table-toolbar.jsx:17 | A column's filter value is absent exactly when it has no entry, else the value of its first entry |
| DataTableToolbar.WithoutFilter | frontend/src/app/components/data-table/data-table-toolbar.jsx:18-20 | Removing a column's filter drops exactly that column's entries and keeps every other entry |
| DataTableToolbar.WithoutFilterAppend | frontend/src/app/components/data-table/data-table-toolbar.jsx:18-20 | Removal works piece by piece over concatenation, so the kept entries keep their order |
| DataTableToolbar.WithFilterValue | frontend/src/app/components/data-table/data-table-toolbar.jsx:18-20 | Empty text removes every entry of the column; other text replaces the value of its entries in place, every other entry unchanged, or is appended at the end when it has none |
| DataTableToolbar.InputValue | frontend/src/app/components/data-table/data-table-toolbar.jsx:17 | The input shows the value of the first filter entry for the column; it is empty when the column or its filter is missing |
| DataTableToolbar.View | frontend/src/app/components/data-table/data-table-toolbar.jsx:8-46 | The placeholder is "Filter by <column>..."; Reset shows exactly when some filter is active; with the column and a filter present the input shows that filter's value; Add goes to `addUrl` |
| DataTableToolbar.TypedTextIsShown | frontend/src/app/components/data-table/data-table-toolbar.jsx:17-20 | Typing and reading back gives the typed text, and the filter is absent exactly for empty text |
| DataTableToolbar.OtherFiltersUntouched | frontend/src/app/components/data-table/data-table-toolbar.jsx:18-20 | Typing into one column leaves the entries of every other column exactly as they were, in order |
| DataTableToolbar.TypingKeepsFiltersUnique | frontend/src/app/components/data-table/data-table-toolbar.jsx:18-20 | Typing never creates a second entry for a column |
| DataTableToolbar.ResetClearsToolbar | frontend/src/app/components/data-table/data-table-toolbar.jsx:24-33 | After Reset the button is gone and the input is empty |
| DataTableViewOptions.HideableColumns | frontend/src/app/components/data-table/data-table-view-options.jsx:49-52 | The menu lists exactly the hideable columns |
| DataTableViewOptions.HideableColumnsAppend | frontend/src/app/components/data-table/data-table-view-options.jsx:49-52 | The menu keeps the table's column order |
| DataTableViewOptions.AllHideable | frontend/src/app/components/data-table/data-table-view-options.jsx:49-52 | When every column can be hidden the menu lists them all |
| DataTableViewOptions.MenuLabel | frontend/src/app/components/data-table/data-table-view-options.jsx:53-60 | A string header is the label, else "Select", "Actions" or the column id |
| DataTableViewOptions.MenuLabelNonEmpty | frontend/src/app/components/data-table/data-table-view-options.jsx:53-60 | A column with a non-empty id never gets an empty label |
| DataTableViewOptions.IsVisible | frontend/src/app/components/data-table/data-table-view-options.jsx:65 | A column is visible unless its recorded visibility says otherwise |
| DataTableViewOptions.WithVisibility | frontend/src/app/components/data-table/data-table-view-options.jsx:66 | Toggling sets that column's visibility and no other column's |
| DataTableViewOptions.Menu | frontend/src/app/components/data-table/data-table-view-options.jsx:49-71 | One checkbox per hideable column, in order, labelled, checked exactly when visible |
| DataTableViewOptions.UnhideableNotInMenu | frontend/src/app/components/data-table/data-table-view-options.jsx:51 | A column that cannot be hidden gets no checkbox |
| DataTableViewOptions.HandleExport | frontend/src/app/components/data-table/data-table-view-options.jsx:16-22 | The click requests what `exportToExcel` requests, never rethrows and changes no state; an error is logged exactly when the export did not succeed, and it is the error the export threw |
| DataTableViewOptions.ExportToExcel | frontend/src/api/ExportApi.js:1-27 | Without a stored token it throws "No auth token found" and sends nothing; otherwise it GETs `${url}/export`, succeeds with "Export successful!" exactly on an ok reply, and else throws the server message, the fallback naming the URL, or the body error |
| DataTableViewOptions.ExportFromTable | frontend/src/app/components/data-table/data-table-view-options.jsx:16-22 | From the table (no `Export` prop) a click with a token requests "undefined/export" and succeeds exactly on an ok reply; without a token it logs "No auth token found" |
| DataTableViewOptions.ExportUrl | frontend/src/api/ExportApi.js:9 | With the `Export` prop missing the request goes to "undefined/export" |
| DataTables.IdOrCode | frontend/src/app/components/data-table/data-table.jsx:68 | A row is sent by its `id`, or by its `code` when `id` is null or undefined |
| DataTables.SelectedIndices | frontend/src/app/components/data-table/data-table.jsx:61 | Exactly the selected rows that pass the filters, in ascending data order |
| DataTables.SelectedIds | frontend/src/app/components/data-table/data-table.jsx:67-69 | One identifier per selected filtered row, in that order, each `id ?? code` |
| DataTables.SelectionBar | frontend/src/app/components/data-table/data-table.jsx:91-96 | The bar is hidden exactly for no selection; it reads "<n> row(s) selected" |
| DataTables.SingularOnlyForOne | frontend/src/app/components/data-table/data-table.jsx:94 | The singular "row" appears exactly for one selected row |
| DataTables.TableBody | frontend/src/app/components/data-table/data-table.jsx:130-156 | "No results." spanning every column exactly when the page is empty, else the page's rows |
| DataTables.HeaderCheckbox | frontend/src/app/customers/page.js:69-72 | Checked when every page row is selected, indeterminate when only some are |
| DataTables.WithPageSelected | frontend/src/app/customers/page.js:73 | Every page row gets the new value and rows off the page keep theirs |
| DataTables.HeaderFollowsToggleAll | frontend/src/app/customers/page.js:69-73 | Selecting the whole page checks the header box; clearing it unchecks the box |
| DataTables.BulkDeleteRemovesSelection | frontend/src/app/components/data-table/data-table.jsx:65-75 | When `id ?? code` is the key the screen deletes by, every selected row goes and every unlisted row stays |
| DataTables.DataTable.constructor | frontend/src/app/components/data-table/data-table.jsx:36-39 | Nothing is selected, filtered, sorted or hidden at first |
| DataTables.DataTable.SelectedCount | frontend/src/app/components/data-table/data-table.jsx:61-62 | The count is the number of selected rows that pass the filters, so it is positive exactly when some selected row passes them |
| DataTables.DataTable.ShownBar | frontend/src/app/components/data-table/data-table.jsx:91-96 | The bar is hidden exactly when no selected row passes the filters; otherwise it reads "<n> row(s) selected" with n the number of selected rows that pass |
| DataTables.SelectedIndicesCount | frontend/src/app/components/data-table/data-table.jsx:61-62 | The filtered selected row list has one entry per selected row index that passes the filters |
| DataTables.SelectingOneMoreRow | frontend/src/app/components/data-table/data-table.jsx:61-62 | Selecting one more row that passes the filters raises the count by exactly one |
| DataTables.DataTable.HandleBulkDelete | frontend/src/app/components/data-table/data-table.jsx:65-75 | With a handler, the selected ids are sent, the store is reconciled on success, and the selection is cleared either way, which hides the selection bar |
| DataTables.DataTable.SetFilterValue | frontend/src/app/components/data-table/data-table-toolbar.jsx:18-20 | The filter column's entry follows the typed text; nothing else changes |
| DataTables.DataTable.ResetColumnFilters | frontend/src/app/components/data-table/data-table-toolbar.jsx:27 | Every column filter is cleared |
| DataTables.DataTable.ToggleVisibility | frontend/src/app/components/data-table/data-table-view-options.jsx:66 | Only a hideable column's visibility changes |
| DataTables.DataTable.ToggleRowSelected | frontend/src/app/customers/page.js:81 | That row is added to or removed from the selection |
| DataTables.DataTable.ToggleAllPageRowsSelected | frontend/src/app/customers/page.js:73 | The page's rows are all selected or all cleared |
| CustomersScreen.FieldColumns | frontend/src/app/customers/page.js:89-195 | Twelve field columns in order, exact-text filtered, sortable except the photo |
| CustomersScreen.Columns | frontend/src/app/customers/page.js:64-206 | Select column, twelve field columns, actions column |
| CustomersScreen.ColumnFlags | frontend/src/app/customers/page.js:86-87 | Only the select column cannot be hidden; the photo is the one unsortable field |
| CustomersScreen.MenuCaptions | frontend/src/app/components/data-table/data-table-view-options.jsx:53-60 | The menu lists thirteen columns labelled by field name, then "Actions" |
| CustomersScreen.HideableAfterSelect | frontend/src/app/customers/page.js:87 | The menu's columns are exactly those after the select column |
| CustomersScreen.Mount | frontend/src/app/customers/page.js:224-232 | Store keyed by `id`, bulk delete wired, no toolbar, empty view state |
| SalesmenScreen.FieldColumns | frontend/src/app/salesmen/page.js:89-140 | Five sortable, exact-text filtered field columns in order |
| SalesmenScreen.Columns | frontend/src/app/salesmen/page.js:64-151 | Select column, five field columns, actions column |
| SalesmenScreen.ColumnFlags | frontend/src/app/salesmen/page.js:64-151 | The select column is neither sortable nor hideable; field columns are both |
| SalesmenScreen.Status | frontend/src/app/salesmen/page.js:127-132 | Green exactly when `is_inactive` is the number 0 |
| SalesmenScreen.StatusIsStrict | frontend/src/app/salesmen/page.js:132 | `false`, "0", null and undefined all show red |
| SalesmenScreen.RowActionRemovesSalesman | frontend/src/app/salesmen/page.js:147 | A successful row delete removes that salesman |
| SalesmenScreen.BulkDeleteOfRecordWithId | frontend/src/app/salesmen/page.js:55 | A record with an `id` is sent by `id` and kept by the `code` filter |
| SalesmenScreen.Mount | frontend/src/app/salesmen/page.js:157-165 | Store keyed by `code`, bulk delete wired, no toolbar, empty view state |
| InvoicesScreen.FieldColumns | frontend/src/app/invoices/page.js:82-124 | Six sortable field columns with the automatic filter |
| InvoicesScreen.Columns | frontend/src/app/invoices/page.js:57-135 | Select column, six field columns, actions column |
| InvoicesScreen.IdColumnExists | frontend/src/app/invoices/page.js:141 | The toolbar's `id` column exists |
| InvoicesScreen.IdFilterFollowsInput | frontend/src/app/invoices/page.js:141 | Typing into the toolbar filters `id` by that text and shows it |
| InvoicesScreen.Mount | frontend/src/app/invoices/page.js:138-146 | Store keyed by `id`, bulk delete wired, toolbar on `id`, empty view state |
| AddCustomer.Defaults | frontend/src/app/customers/addCustomer/page.js:56-67 | Every text field empty, tags the empty text, salesman code the empty string, today's date, rate 0, no photo |
| AddCustomer.CleanTags | frontend/src/app/customers/addCustomer/page.js:37-38 | Never more tags than pieces; a single piece gives its trim, or nothing when that is empty |
| AddCustomer.CleanTagsAreClean | frontend/src/app/customers/addCustomer/page.js:37-38 | Every tag is non-empty with no whitespace at either end |
| AddCustomer.CleanTagsOfNonBlank | frontend/src/app/customers/addCustomer/page.js:37-38 | When no piece is blank, the tags are the pieces trimmed, one per piece, in order |
| AddCustomer.CleanTagsAppend | frontend/src/app/customers/addCustomer/page.js:37-38 | Cleaning goes piece by piece: the tags of two piece lists joined are the tags of each, in order |
| AddCustomer.ParseTags | frontend/src/app/customers/addCustomer/page.js:30-40 | No tags for missing or empty text; otherwise the comma-split pieces cleaned, each tag non-empty, trimmed and comma-free |
| AddCustomer.CleanTagsOfClean | frontend/src/app/customers/addCustomer/page.js:37-38 | Cleaning already clean tags changes nothing |
| AddCustomer.TagsRoundTrip | frontend/src/app/customers/addCustomer/page.js:33-39 | Parsing clean tags joined by commas gives back those tags |
| AddCustomer.ParseTagsStable | frontend/src/app/customers/addCustomer/page.js:33-39 | Re-joining and re-parsing parsed tags is stable |
| AddCustomer.Issues | frontend/src/app/customers/addCustomer/page.js:22-43 | No issues exactly when valid; messages as the schema gives them |
| AddCustomer.Parse | frontend/src/app/customers/addCustomer/page.js:22-43 | Parsed exactly when valid, with the issues otherwise and the fields carried over |
| AddCustomer.UntouchedFormIssues | frontend/src/app/customers/addCustomer/page.js:56-67 | An untouched form reports name, telephone, address, gender and salesman code as required |
| AddCustomer.RateRule | frontend/src/app/customers/addCustomer/page.js:29 | A negative rate is never valid and reports "Rate cannot be negative" |
| AddCustomer.FindByName | frontend/src/app/customers/addCustomer/page.js:227-229 | A found salesman is in the list with a case-insensitively matching name |
| AddCustomer.FindByNameIsFirstMatch | frontend/src/app/customers/addCustomer/page.js:227-229 | The first match is found; not found exactly when all are passed over; a non-text name reached first throws |
| AddCustomer.TriggerText | frontend/src/app/customers/addCustomer/page.js:204-210 | A spinner exactly while loading; else the name of the first salesman with that code when the code and name are truthy, otherwise "Select salesman" |
| AddCustomer.PickedSalesmanIsShown | frontend/src/app/customers/addCustomer/page.js:204-235 | With unique codes, picking a salesman shows that salesman's name |
| AddCustomer.SalesmenFromResponse | frontend/src/app/customers/addCustomer/page.js:76-87 | The list is `data.salesmen` when that is an array, else empty; empty when the call threw |
| AddCustomer.NamesRequestAsWritten | frontend/src/app/customers/addCustomer/page.js:47 | Calling the missing `getSalesmenName` throws "getSalesmenName is not a function" |
| AddCustomer.SalesmanNeverPickableAsWritten | frontend/src/app/customers/addCustomer/page.js:74 | As written, the list stays empty and no salesman can be picked, so no form is ever valid |
| AddCustomer.PickingFromLoadedListCompletesForm | frontend/src/app/customers/addCustomer/page.js:226-235 | With a loaded list, picking a salesman by name sets its code and completes the form |
| AddCustomer.CustomerForm.constructor | frontend/src/app/customers/addCustomer/page.js:48-68 | Defaults, empty list, loading, not submitting, no preview |
| AddCustomer.CustomerForm.LoadSalesmen | frontend/src/app/customers/addCustomer/page.js:70-93 | The list comes from the reply; a thrown call shows "Failed to load salesmen"; loading ends |
| AddCustomer.CustomerForm.SelectSalesman | frontend/src/app/customers/addCustomer/page.js:226-235 | Only a found salesman sets the code |
| AddCustomer.CustomerForm.ChoosePhoto | frontend/src/app/customers/addCustomer/page.js:95-98 | A chosen file becomes the photo; no file changes nothing |
| AddCustomer.CustomerForm.PreviewLoaded | frontend/src/app/customers/addCustomer/page.js:100-102 | The preview becomes the loaded data URL |
| AddCustomer.CustomerForm.RemovePhoto | frontend/src/app/customers/addCustomer/page.js:107-115 | The photo and the preview are cleared |
| AddCustomer.CustomerForm.Cancel | frontend/src/app/customers/addCustomer/page.js:422 | Values return to the current defaults; the preview is kept |
| AddCustomer.CustomerForm.Submit | frontend/src/app/customers/addCustomer/page.js:117-159 | Invalid values only show issues; success sends the parsed data and resets; failure keeps the values and shows the message or "Please try again" |
| AddInvoice.BlankItem | frontend/src/app/invoices/addInvoice/page.js:83 | Empty code, quantity 1, price 0 |
| AddInvoice.Defaults | frontend/src/app/invoices/addInvoice/page.js:80-84 | No customer, today's date, one blank line |
| AddInvoice.ItemIssues | frontend/src/app/invoices/addInvoice/page.js:53-61 | A line has no issues exactly when it is valid |
| AddInvoice.LinesIssues | frontend/src/app/invoices/addInvoice/page.js:66 | No line issues exactly when every line is valid |
| AddInvoice.Issues | frontend/src/app/invoices/addInvoice/page.js:63-69 | No issues exactly when valid |
| AddInvoice.WholePart | frontend/src/app/invoices/addInvoice/page.js:123 | `parseInt` of a positive number is its whole part |
| AddInvoice.PayloadItems | frontend/src/app/invoices/addInvoice/page.js:121-125 | One payload line per line, same order and code, price unchanged, quantity its whole part |
| AddInvoice.Parse | frontend/src/app/invoices/addInvoice/page.js:118-126 | A payload exactly when valid, built from the values |
| AddInvoice.NoLinesRejected | frontend/src/app/invoices/addInvoice/page.js:66-68 | No lines reports "At least one item is required" |
| AddInvoice.BadLineRejected | frontend/src/app/invoices/addInvoice/page.js:55-60 | A zero quantity or negative price rejects the invoice |
| AddInvoice.FractionalQuantitySentAsZero | frontend/src/app/invoices/addInvoice/page.js:123 | Quantity 0.5 is valid but sent as 0 |
| AddInvoice.NumericCustomerIdRejected | frontend/src/app/invoices/addInvoice/page.js:64 | A numeric customer id makes the form invalid, and its first message is "Expected string, received number" |
| AddInvoice.TriggerText | frontend/src/app/invoices/addInvoice/page.js:190-197 | A spinner exactly while loading; else the name of the first customer with that id when the id and name are truthy, otherwise "Select customer" |
| AddInvoice.PickedCustomerIsShown | frontend/src/app/invoices/addInvoice/page.js:190-213 | A picked customer whose id no earlier customer shares puts its name on the trigger (the placeholder when the name or id is not truthy) |
| AddInvoice.PickAfterLoad | frontend/src/app/invoices/addInvoice/page.js:190-213 | Loading a customer list and picking one of its customers stores that id and shows that customer's name |
| AddInvoice.InvoiceForm.constructor | frontend/src/app/invoices/addInvoice/page.js:73-85 | Defaults, empty list, loading, not submitting |
| AddInvoice.InvoiceForm.LoadCustomers | frontend/src/app/invoices/addInvoice/page.js:94-111 | The list becomes the reply; a thrown call shows "Failed to load customers"; loading ends |
| AddInvoice.InvoiceForm.SelectCustomer | frontend/src/app/invoices/addInvoice/page.js:212 | The customer id becomes the picked customer's `id` |
| AddInvoice.InvoiceForm.AppendItem | frontend/src/app/invoices/addInvoice/page.js:276 | A blank line is appended |
| AddInvoice.InvoiceForm.RemoveItem | frontend/src/app/invoices/addInvoice/page.js:354-355 | The line is removed unless it is the only one |
| AddInvoice.InvoiceForm.Cancel | frontend/src/app/invoices/addInvoice/page.js:385 | Values return to the current defaults |
| AddInvoice.InvoiceForm.Submit | frontend/src/app/invoices/addInvoice/page.js:113-147 | Invalid values only show issues; success sends the payload and resets; failure keeps the values |
| AddSalesman.Defaults | frontend/src/app/salesmen/addSalesmen/page.js:34-40 | Empty texts, active |
| AddSalesman.MatchesPhonePattern | frontend/src/app/salesmen/addSalesmen/page.js:22 | Accepted exactly when every character is a digit, `+`, `-`, whitespace or a parenthesis |
| AddSalesman.Issues | frontend/src/app/salesmen/addSalesmen/page.js:17-25 | No issues exactly when valid |
| AddSalesman.UntouchedFormIssues | frontend/src/app/salesmen/addSalesmen/page.js:17-40 | An untouched form reports code, name and phone as required |
| AddSalesman.LetterInPhoneRejected | frontend/src/app/salesmen/addSalesmen/page.js:22 | A letter in the phone shows "Please enter a valid phone number" |
| AddSalesman.SalesmanForm.Submit | frontend/src/app/salesmen/addSalesmen/page.js:43-67 | Invalid values only show issues; success resets; failure shows the message or "Please try again." |
| AddItem.Defaults | frontend/src/app/items/addItem/page.js:29-33 | Empty texts |
| AddItem.Issues | frontend/src/app/items/addItem/page.js:16-20 | Each required-field message appears exactly when its field is empty |
| AddItem.DescriptionIsOptional | frontend/src/app/items/addItem/page.js:19 | The description never affects validation |
| AddItem.ItemForm.Submit | frontend/src/app/items/addItem/page.js:36-60 | Invalid values only show issues; success resets; failure shows the message or "Please try again." |
| RegisterForm.Defaults | frontend/src/app/register/page.js:35-39 | Empty texts |
| RegisterForm.Issues | frontend/src/app/register/page.js:18-25 | No issues exactly when valid |
| RegisterForm.EmptyEmailShowsRequired | frontend/src/app/register/page.js:20-23 | An empty email shows "Email is required" |
| RegisterForm.ShortNameAndPasswordRejected | frontend/src/app/register/page.js:19-24 | A one-letter name or five-letter password is rejected with its message |
| RegisterForm.RegisterPage.Submit | frontend/src/app/register/page.js:42-68 | Valid values go to register as (name, email, password); only success schedules "/login" after 2 s |
| LoginForm.Defaults | frontend/src/app/login/page.js:34-37 | Empty texts |
| LoginForm.Issues | frontend/src/app/login/page.js:18-24 | No issues exactly when valid |
| LoginForm.FirstMessages | frontend/src/app/login/page.js:18-24 | An empty email and a short password show their messages |
| LoginForm.TokenOf | frontend/src/app/login/page.js:44-45 | Reading `token` from a null response throws the TypeError |
| LoginForm.LoginPage.Submit | frontend/src/app/login/page.js:40-66 | Success stores the token under "token" and schedules "/" after 1 s; failure stores nothing |
| Sidebar.NavLinks | frontend/src/app/components/OverlaySidebar.jsx:97-140 | Home, then four groups of two sub-links |
| Sidebar.Targets | frontend/src/app/components/OverlaySidebar.jsx:97-140 | Every plain and sub-link target is listed |
| Sidebar.MenuTargetsDistinct | frontend/src/app/components/OverlaySidebar.jsx:97-140 | The menu leads to exactly the nine listed pages, in order, and no two entries lead to the same page |
| Sidebar.MenuTargetsListed | frontend/src/app/components/OverlaySidebar.jsx:97-140 | The menu's targets, in menu order, are the nine pages of the application |
| Sidebar.SubActiveMarksGroup | frontend/src/app/components/OverlaySidebar.jsx:191-193 | A group is highlighted when one of its sub-links is |
| Sidebar.UnknownPathHighlightsNothing | frontend/src/app/components/OverlaySidebar.jsx:191-193 | A path that is no target highlights no entry |
| Sidebar.ToggledDropdown | frontend/src/app/components/OverlaySidebar.jsx:93-95 | The open group closes; any other group opens in its place |
| Sidebar.DropdownToggleProperties | frontend/src/app/components/OverlaySidebar.jsx:93-95 | Toggling twice restores the state; toggling a second group leaves only it open |
| Sidebar.InitialDark | frontend/src/app/components/OverlaySidebar.jsx:67-72 | Dark exactly when the stored theme is "dark" |
| Sidebar.OverlaySidebar.constructor | frontend/src/app/components/OverlaySidebar.jsx:28-80 | Closed, no group open, the stored theme applied |
| Sidebar.OverlaySidebar.ToggleSidebar | frontend/src/app/components/OverlaySidebar.jsx:89-91 | Open flips, nothing else changes |
| Sidebar.OverlaySidebar.ToggleDropdown | frontend/src/app/components/OverlaySidebar.jsx:93-95 | The open group follows `ToggledDropdown` |
| Sidebar.OverlaySidebar.MouseDown | frontend/src/app/components/OverlaySidebar.jsx:41-60 | A press outside the sidebar and the menu button closes it |
| Sidebar.OverlaySidebar.PathnameChanged | frontend/src/app/components/OverlaySidebar.jsx:62-65 | Navigation closes the sidebar and every group |
| Sidebar.OverlaySidebar.ToggleDarkMode | frontend/src/app/components/OverlaySidebar.jsx:82-87 | The mode flips, the document follows, and the stored theme reads back as the new mode |
| Sidebar.OverlaySidebar.Logout | frontend/src/app/components/OverlaySidebar.jsx:32-39 | Only a successful logout moves to "/login" |
| RouteGuard.RedirectCases | frontend/src/app/components/ProtectedRoute.js:9-16 | Sign-in pages and a stored token never redirect; no token on "/" does |
| RouteGuard.PageTokenWriteIsNotGuardToken | frontend/src/app/login/page.js:45 | The page's "token" write alone does not satisfy the guard's "Token" read |
| RouteGuard.PageSignInThenGuard | frontend/src/app/login/page.js:40-66 | After the page's sign-in, with no "Token" stored, the guard on "/" still shows "Login First", schedules "/login" and does not render the page, even though a successful sign-in stored "token" |
| RouteGuard.ProtectedRoute.constructor | frontend/src/app/components/ProtectedRoute.js:10 | Nothing renders at first |
| RouteGuard.ProtectedRoute.Check | frontend/src/app/components/ProtectedRoute.js:12-31 | Without a token on a protected page: "Login First" and a replace to "/login" after 2 s; otherwise rendering is granted, and a grant is never withdrawn |
| RouteGuard.GrantIsSticky | frontend/src/app/components/ProtectedRoute.js:33-37 | Once granted, the children keep rendering after any later check |
| CustomersApiClient.NoTokenError | frontend/src/api/CustomersApi.js:9-12 | The error is "No auth token found" |
| CustomersApiClient.JsonHeaders | frontend/src/api/CustomersApi.js:15-19 | Content-Type JSON, the bearer token, Accept JSON |
| CustomersApiClient.WithoutHeader | frontend/src/api/CustomersApi.js:31 | Deleting a header keeps exactly the others |
| CustomersApiClient.HeaderValue | frontend/src/api/CustomersApi.js:15-19 | A header's value when present, none exactly when absent |
| CustomersApiClient.MultipartHeaders | frontend/src/api/CustomersApi.js:31 | A multipart request has the bearer token and Accept and no Content-Type |
| Effects.Settle | frontend/src/api/CustomersApi.js:41-45 | A network error rethrows; only an ok JSON reply resolves, with its body; an unreadable body throws the parse error; a `null` error body throws a TypeError; otherwise the server message or the fallback is thrown |
| CustomersApiClient.UnreadableBodiesThrow | frontend/src/api/CustomersApi.js:41-45 | An ok reply whose body is not JSON throws the parse error; a failed reply with a `null` body shows "Cannot read properties of null (reading 'message')" |
| CustomersApiClient.ServerMessageShown | frontend/src/api/CustomersApi.js:43 | A server message reaches the page's toast |
| CustomersApiClient.EntryValue | frontend/src/api/CustomersApi.js:26-28 | A file is appended as a file, anything else as its string form |
| CustomersApiClient.TagParts | frontend/src/api/CustomersApi.js:24 | One `tags[]` part per tag, in order |
| CustomersApiClient.PartsNamedAppend | frontend/src/api/CustomersApi.js:20-30 | The parts named n of a joined body are those of each half, in order |
| CustomersApiClient.TagsError | frontend/src/api/CustomersApi.js:24 | `tags.forEach` on null/undefined or a non-array throws its TypeError |
| CustomersApiClient.AddKeyParts | frontend/src/api/CustomersApi.js:22-29 | `tags` gives its tag parts, other keys one part; a non-array `tags` fails |
| CustomersApiClient.AddBody | frontend/src/api/CustomersApi.js:20-30 | The body fails exactly when `tags` is a key and not an array |
| CustomersApiClient.AddBodyNamed | frontend/src/api/CustomersApi.js:20-30 | Each key other than `tags` appears once, with its value |
| CustomersApiClient.AddBodyTags | frontend/src/api/CustomersApi.js:24 | The `tags[]` parts are exactly the tags, in order |
| CustomersApiClient.UpdateKeyParts | frontend/src/api/CustomersApi.js:162-172 | `photo` as a file, an array `tags` as tag parts, other keys one part |
| CustomersApiClient.UpdateBody | frontend/src/api/CustomersApi.js:157-173 | Every part's name is a key or `tags[]` |
| CustomersApiClient.UpdateBodyNamed | frontend/src/api/CustomersApi.js:162-172 | A key's parts are those of that key alone |
| CustomersApiClient.UpdateBodyTags | frontend/src/api/CustomersApi.js:166-169 | The `tags[]` parts are the tags when `tags` is an array |
| CustomersApiClient.BuildAddBody | frontend/src/api/CustomersApi.js:20-30 | The loop builds exactly `AddBody` of the object's keys |
| CustomersApiClient.BuildUpdateBody | frontend/src/api/CustomersApi.js:157-173 | The loop builds exactly `UpdateBody` of the object's keys |
| CustomersApiClient.RecordUrl | frontend/src/api/CustomersApi.js:100-122 | A record's URL is the base URL, a slash and the id's string form |
| CustomersApiClient.RecordUrlsDistinct | frontend/src/api/CustomersApi.js:100-122 | Distinct numeric ids give distinct URLs |
| CustomersApiClient.AddCustomer | frontend/src/api/CustomersApi.js:8-50 | No token throws before any request; a truthy photo sends multipart, else JSON; authorized, content type matching the body |
| CustomersApiClient.GetCustomersNames | frontend/src/api/CustomersApi.js:52-75 | GET "/names", authorized; "Failed to fetch customers names" |
| CustomersApiClient.GetCustomers | frontend/src/api/CustomersApi.js:76-98 | GET the base URL, authorized; "Failed to fetch customers" |
| CustomersApiClient.DeleteCustomer | frontend/src/api/CustomersApi.js:100-122 | DELETE the record URL, authorized; "Failed to delete customer" |
| CustomersApiClient.UpdateCustomer | frontend/src/api/CustomersApi.js:149-214 | A file photo sends a multipart PUT, else a JSON PUT; authorized |
| CustomersApiClient.ShowCustomer | frontend/src/api/CustomersApi.js:216-241 | GET the record URL, authorized; "Failed to fetch customer details" |
| CustomersApiClient.BulkDeleteCustomers | frontend/src/api/CustomersApi.js:243-267 | DELETE "/bulk-delete" with `{ids}`, authorized |

## Left out

- Numbers in `JsValues.Value` are integers. Floating-point arithmetic, and therefore the invoice form's running total (`calculateTotal`), is not modelled. Form number inputs are reals or "not a number".
- Number coercion (`z.coerce.number`, `parseFloat`) is taken as already done: the form values hold the coerced number. `parseInt` is modelled only for positive numbers (the whole part). Its handling of exponent notation is not modelled.
- Date formatting (`format(date, "yyyy-MM-dd")`) is not modelled; a date is a day number.
- Text is sequences of characters. UTF-16 details and locale-dependent casing are not modelled. `toLowerCase` covers ASCII letters only; `trim` strips the ECMAScript whitespace and line-terminator characters.
- The email-format check belongs to the validation library and is a parameter (`isEmail`) of the register and sign-in forms.
- The table library's filtering, sorting and pagination are parameters (`passes`, `pageRows`). Sorting state is kept but its ordering is not modelled.
- Toasts, timers, the router and logging are recorded as returned values (`Notice`, `Navigation`, a logged flag), not performed.
- Object identity is not modelled. Strict equality is value equality, which agrees with the source's uses on strings, numbers and booleans.
- The API clients other than the customers client and the export helper are not part of this model, and neither are the detail and edit pages. Their calls appear as `Settled` outcomes passed to the forms and screens. The `fetch` call itself is a `Reply` parameter.
- The add-invoice page's local `getCustomers` helper (addInvoice/page.js:410-442) is left out; its outcome is the `reply` of `AddInvoice.InvoiceForm.LoadCustomers`.
- The `typeof window` checks for server rendering are not modelled; the model is always in the browser.
- `JSON.stringify` is not modelled; a JSON body holds the value to be serialised.
- RowStores.RowsFromResponse: a truthy `data.<entity>.data` that is not an array is taken as the empty list; the source stores it as it is, and the table would then fail to render it.
- AddInvoice.CustomerList: a loaded value that is not an array is shown as an empty list; the source would throw in `customers.find` while rendering.
- AddCustomer.CustomerForm.LoadSalesmen: a thrown value without a message shows an empty description; the source passes `undefined`, which shows none.
- CustomersApiClient.AddCustomer: requires the data to be an object, as every caller passes one; `Object.keys` of other values is not modelled.
- CustomersApiClient.UpdateCustomer: requires the data to be an object, for the same reason.
- A reply's body is either parsed JSON or the error `response.json()` rejects with (`Effects.Reply`); the text of that parse error comes with the reply and is not derived from the body.
- The export request's headers are not modelled; only its URL and whether it is sent are.

## Findings

| source | as written | input that shows it | evidently intended | confidence | as-written member | corrected member |
|---|---|---|---|---|---|---|
| frontend/src/app/customers/addCustomer/page.js:47 | The page takes `getSalesmenName` from the salesmen API hook, but the hook does not export it (frontend/src/api/salesmenApi.js:155-162). The call at line 74 throws "getSalesmenName is not a function", so the salesmen list stays empty. No salesman can be picked, the required salesman code stays empty, and the form can never be submitted. | Any page load | Load the salesmen names, so that picking a salesman by name sets its code | not executed | AddCustomer.SalesmanNeverPickableAsWritten | AddCustomer.PickingFromLoadedListCompletesForm |

# Tailoring shop dashboard — verified model of its client-side logic

The dashboard is a React admin panel for a tailoring shop. Staff use it to
register customers, place orders through a four-step wizard, move orders
through the status workflow, pay and assign employees, and keep the item and
cloth catalogues. This project models that panel's own logic in Dafny and
proves properties about it:

- the masked inputs for phone numbers (`03XX-XXXXXXX`) and national identity
  card numbers (CNIC, `#####-#######-#`);
- the form validators: new customer, new and edited employee, new and edited
  item, new cloth;
- the order status workflow (`pending → in progress → completed → shipped`):
  its next/previous buttons, progress points, badge colours and paid toggle;
- the order-placement wizard: step transitions, product lines and their
  options, the running total and the measurement check;
- the measurement panel: field edits, file uploads and removals, and loading
  a customer's profile;
- the list pages: search and status/role/type filters, eight-per-page
  pagination and the pagination bar, and the item and catalogue editors;
- the small aggregations: dashboard counts per product type, an employee's
  completed/pending split, and the distinct cloth types.

Every module stands for one source file or one shared concept. `Base`,
`Text` and `Lists` hold the JavaScript primitives the pages use:
`toLowerCase` (ASCII), `includes`, `replace(/\D/g, "")`, `trim`, and
`filter` with its order-preservation lemmas. `Entities` holds the records
that several pages share.

Component state that event handlers update becomes a class:
`PlaceOrderWizard`, `MeasurementPanel`, `OrderDetailsPage`, `OrderListPage`,
`ItemsPage` and the cloth `Carousel`. Each handler is a method with a
`modifies` clause, and its postcondition states the whole new state.
Validators, filters and formatters are functions with named results and
lemmas. The pagination bar is built by a loop in the source, so
`GetPageNumbers` is a `while` loop proved against the function
`PageNumbers`. The upload filter in the measurement panel is also a loop,
`CollectUploads`.

Server round trips are parameters. A method receives the server's reply, or
only whether the request succeeded, and the model states what the page does
with it. Four behaviours of the code are easy to miss:

- Adding a cloth. The number inputs store the typed text, not a number, so
  a typed "0" is a non-empty string and passes `!item.price`. Only an empty
  price is refused
  (`ClothCatalog.TypedZeroPriceAccepted`).
- The measurement check. It takes `Object.values(measurements)`, and that
  list includes `hasExistingFile`. When a customer's profile carries
  `hasExistingFile: false`, the value `false` counts as below 1, so manual
  measurements can never pass (`PlaceOrder.FalseFileFlagBlocksManualEntry`).
- Assigning employees. The item-assignment dialog lists employees whose role
  is exactly `cutter` or `tailor`. The employee form offers only `Cutter`,
  `Stitcher`, `Designer` and `Sales` (`ItemAssignment.RoleSplit`).
- Loading a customer. When the newly chosen customer has no files, the
  previous customer's uploaded files stay on screen; only the flag is
  cleared (`MeasurementDetails.MeasurementPanel.LoadCustomerProfile`).

## Model

| member | source | states |
|---|---|---|
| Text.Digits | src/Pages/PlaceOrder/index.js:123 | `replace(/\D/g, "")` keeps only digits and never lengthens the text |
| MaskedInput.FormatPhone | src/Pages/PlaceOrder/index.js:122-127 | at most 12 characters; the digits with a dash after the fourth once there are more than four, cut to eleven digits; the dash is exactly at index 4 and every other character is a digit; 12 characters exactly when the input held at least 11 digits |
| MaskedInput.FullPhoneHasShape | src/Pages/customers.js:178-183 | a formatted phone number has the length the validators demand exactly when it is in the full `03XX-XXXXXXX` shape, exactly when 11 digits were typed |
| MaskedInput.PhoneIdempotent | src/Pages/Employee/addEmployee.js:34-39 | formatting a formatted phone number changes nothing |
| MaskedInput.FormatCnic | src/Pages/Employee/addEmployee.js:27-32 | at most 15 characters: up to five digits as typed, then a dash, up to seven more digits, and with 13 or more digits a second dash and one final digit; dashes only at 5 and 13; 15 characters exactly when 13 digits were typed |
| MaskedInput.FullCnicHasShape | src/Pages/Employee/editEmployee.js:22-29 | a 15-character CNIC is exactly the full `#####-#######-#` shape, reached exactly when 13 digits were typed |
| MaskedInput.CnicIdempotent | src/Pages/Employee/editEmployee.js:22-29 | formatting a formatted CNIC changes nothing |
| Entities.SelectByIds | src/Pages/Orders/index.js:100-103 | the products shown are exactly the fetched products whose id the order lists |
| Entities.SelectionKeepsOrder | src/Pages/Orders/index.js:100-103 | that selection keeps the fetched order |
| MeasurementDetails.Set | src/Components/ItemDetials/Shirt.js:13-18 | a measurement edit changes the edited field only |
| MeasurementDetails.SetCurrentValueIsNoChange | src/Components/ItemDetials/Shirt.js:13-18 | writing a field's own value leaves the measurements unchanged |
| MeasurementDetails.SetDistinctFieldsCommute | src/Components/ItemDetials/Shirt.js:13-18 | edits to two different fields can happen in either order |
| MeasurementDetails.CollectUploads | src/Components/ItemDetials/Shirt.js:41-55 | the files sent are exactly the selected images and PDFs of at most 5 MB, in selection order |
| MeasurementDetails.UploadKeepsSelectionOrder | src/Components/ItemDetials/Shirt.js:41-55 | the sent files are a subsequence of the selection |
| MeasurementDetails.WithoutFile | src/Components/ItemDetials/Shirt.js:91-93 | after a removal, the remaining files are exactly those with a different id |
| MeasurementDetails.WithoutFileKeepsOrder | src/Components/ItemDetials/Shirt.js:91-93 | the remaining files keep their order; removing an absent id changes nothing |
| MeasurementDetails.MeasurementPanel.constructor | src/Pages/PlaceOrder/index.js:21-40 | blank measurements, no files, flag cleared |
| MeasurementDetails.MeasurementPanel.HandleMeasurementChange | src/Components/ItemDetials/Shirt.js:13-18 | one field changes; the files and the flag stay |
| MeasurementDetails.MeasurementPanel.HandleFileUpload | src/Components/ItemDetials/Shirt.js:32-83 | nothing is sent for an empty selection; otherwise the accepted files are sent; on success the returned files are appended, the flag is set and any extracted measurements replace the current ones; on failure nothing changes |
| MeasurementDetails.MeasurementPanel.RemoveFile | src/Components/ItemDetials/Shirt.js:85-99 | on a successful delete, the file leaves the list and the flag is cleared when it was the last file (judged on the list before removal); otherwise nothing changes |
| MeasurementDetails.MeasurementPanel.LoadCustomerProfile | src/Pages/PlaceOrder/index.js:168-191 | a fetched profile replaces the measurements when it has them and the files when it has some; the flag is true exactly when the profile has files; a failed fetch changes nothing |
| Customers.FilteredCustomers | src/Pages/customers.js:54-57 | a customer is listed exactly when the name contains the query ignoring case, or the phone contains it |
| Customers.FilteredCustomersKeepOrder | src/Pages/customers.js:54-57 | the list keeps its order, and an empty query lists everyone |
| Customers.WithTypedPhone | src/Pages/customers.js:178-183 | typing a phone number changes only the phone, which has at most 12 characters and has 12 only in the full shape |
| Customers.TypedPhoneIsStable | src/Pages/customers.js:298-303 | the edit form reformats a number the mask produced without changing it |
| Customers.OrderCount | src/Pages/customers.js:116 | the order count is 0 exactly when the customer has no order list or an empty one, and otherwise is its length |
| Customers.OrderStatusTone | src/Pages/customers.js:502-507 | green exactly for `completed`, blue exactly for `in progress`, yellow otherwise |
| PlaceOrder.CheckNewCustomer | src/Pages/PlaceOrder/index.js:284-293 | "fill all fields" exactly when a field is empty; otherwise refused exactly when the name has a special character; accepted exactly when in addition the phone has 12 characters |
| PlaceOrder.TypedFormAcceptedIff | src/Pages/PlaceOrder/index.js:284-293 | with a typed phone, the form is accepted exactly when name and address are filled, the name is clean and at least 11 digits were typed |
| PlaceOrder.ApplyEdit | src/Pages/PlaceOrder/index.js:129-133 | a product-line edit sets the one named field; the options stay |
| PlaceOrder.FindOption | src/Pages/PlaceOrder/index.js:135-144 | `findIndex`: the first option with that name, or -1 exactly when there is none |
| PlaceOrder.UpsertOption | src/Pages/PlaceOrder/index.js:135-144 | an existing option takes the new customization in place, leaving every other option as it was; otherwise the option is appended |
| PlaceOrder.UpsertThenLookup | src/Pages/PlaceOrder/index.js:135-144 | after an upsert the option is found with the chosen customization, and repeating the same upsert changes nothing |
| PlaceOrder.SumPricesAppend | src/Pages/PlaceOrder/index.js:59-61 | the total of two lists of lines is the sum of their totals |
| PlaceOrder.SumPricesUpdate | src/Pages/PlaceOrder/index.js:59-61 | changing one line moves the total by that line's price difference |
| PlaceOrder.SumPricesRemove | src/Pages/PlaceOrder/index.js:371-377 | removing a line takes its price off the total |
| PlaceOrder.BlankLineBlocksItems | src/Pages/PlaceOrder/index.js:470-476 | a new blank line blocks step 2, and typing the only untyped line releases it |
| PlaceOrder.ReviewAdvancesIff | src/Pages/PlaceOrder/index.js:520-548 | step 3 advances exactly when a measurement file is on record, or when every measurement is filled and within range and the file flag is not `false` |
| PlaceOrder.FalseFileFlagBlocksManualEntry | src/Pages/PlaceOrder/index.js:533-548 | with no file and `hasExistingFile: false`, step 3 never advances |
| PlaceOrder.PlaceOrderWizard.constructor | src/Pages/PlaceOrder/index.js:14-47 | step 1, empty customer, one blank product line, total 0, empty measurement panel |
| PlaceOrder.PlaceOrderWizard.Back | src/Pages/PlaceOrder/index.js:201-203 | only from steps above 1, one step back, nothing else changes |
| PlaceOrder.PlaceOrderWizard.SetName | src/Pages/PlaceOrder/index.js:259 | only the customer's name changes; the saved customer, the lines, the total, the step and the upload flag stay |
| PlaceOrder.PlaceOrderWizard.SetAddress | src/Pages/PlaceOrder/index.js:277 | only the customer's address changes; the saved customer, the lines, the total, the step and the upload flag stay |
| PlaceOrder.PlaceOrderWizard.TypePhone | src/Pages/PlaceOrder/index.js:122-127 | the phone becomes the masked input's output; nothing else changes |
| PlaceOrder.PlaceOrderWizard.SaveCustomer | src/Pages/PlaceOrder/index.js:162-166 | records the customer; when the saved customer changes, the measurement panel takes the fetched profile's measurements and files as the panel's loader does, otherwise the panel is untouched; the form, lines, total, step and upload flag stay |
| PlaceOrder.PlaceOrderWizard.ContinueWithNewCustomer | src/Pages/PlaceOrder/index.js:83-103 | the verdict is the form check; a refused form stays on step 1; an accepted form reaches step 2 only when the server created the customer and saved the measurements; the panel is reloaded only when a newly created customer is recorded; the form, lines, total and upload flag stay |
| PlaceOrder.PlaceOrderWizard.SelectExistingCustomer | src/Pages/PlaceOrder/index.js:327-329 | picking a listed customer records it and moves to step 2; the panel is reloaded from the profile when the customer differs from the saved one; the form, lines, total and upload flag stay |
| PlaceOrder.PlaceOrderWizard.HandleProductChange | src/Pages/PlaceOrder/index.js:129-133 | one line is edited and the total stays the sum of the line prices |
| PlaceOrder.PlaceOrderWizard.ChooseItem | src/Pages/PlaceOrder/index.js:392-395 | clicking an item sets the line's type and price and keeps the total in step |
| PlaceOrder.PlaceOrderWizard.HandleOptionChange | src/Pages/PlaceOrder/index.js:135-144 | only that line's options change (by upsert); the total is unchanged |
| PlaceOrder.PlaceOrderWizard.AddProduct | src/Pages/PlaceOrder/index.js:454-459 | a blank line is appended; the total is unchanged |
| PlaceOrder.PlaceOrderWizard.RemoveProduct | src/Pages/PlaceOrder/index.js:371-377 | any line but the first can be removed, its price leaves the total, and the list is never empty |
| PlaceOrder.PlaceOrderWizard.ContinueToMeasurements | src/Pages/PlaceOrder/index.js:470-476 | step 3 is reached exactly when every line has an item type |
| PlaceOrder.PlaceOrderWizard.HandleFileUpload | src/Pages/PlaceOrder/index.js:146-148 | sets the uploaded flag; the step, lines, total, form and saved customer stay |
| PlaceOrder.PlaceOrderWizard.ReviewOrder | src/Pages/PlaceOrder/index.js:520-548 | step 4 is reached exactly when the measurement check advances |
| PlaceOrder.PlaceOrderWizard.AdjustTotal | src/Pages/PlaceOrder/index.js:603-606 | on step 4 the total can be overwritten; the lines stay |
| OrderDetails.IndexOfStatus | src/Pages/Orders/index.js:117-130 | `indexOf` over the four statuses: the position, or -1 exactly for an unknown status |
| OrderDetails.NextStatus | src/Pages/Orders/index.js:117-130 | the next status in the workflow; an unknown status moves to `pending` |
| OrderDetails.PreviousStatus | src/Pages/Orders/index.js:117-130 | the previous status, or none for an unknown status (the lookup yields `undefined`, `toLowerCase` on it throws inside the `try`, and the order stays) |
| OrderDetails.NextPreviousRoundTrip | src/Pages/Orders/index.js:377-396 | next then previous, and previous then next, return the original status |
| OrderDetails.FilledPointsMatchIndex | src/Pages/Orders/index.js:235-240 | the filled progress points are a prefix, one per status reached |
| OrderDetails.StatusTone | src/Pages/Orders/index.js:168-181 | grey exactly for a status that is not in the workflow, ignoring case; otherwise yellow, blue, green or purple in workflow order |
| OrderDetails.StatusTonesDistinct | src/Pages/Orders/index.js:168-181 | the four statuses have four different colours, none of them grey |
| OrderDetails.WithPaymentToggled | src/Pages/Orders/index.js:132-145 | the paid flag flips and nothing else changes |
| OrderDetails.PaymentToggleTwice | src/Pages/Orders/index.js:132-145 | toggling twice restores the order |
| OrderDetails.AssignedEmployees | src/Pages/Orders/index.js:163-165 | the product's assigned employees, or none when the field is missing |
| OrderDetails.OrderDetailsPage.constructor | src/Pages/Orders/index.js:100-103 | the page holds the fetched order and exactly its products |
| OrderDetails.OrderDetailsPage.MoveNext | src/Pages/Orders/index.js:387-396 | sends the next status in lower case; on success the order takes it; the products stay |
| OrderDetails.OrderDetailsPage.MovePrevious | src/Pages/Orders/index.js:377-386 | sends the previous status when there is one; on success the order takes it; an unknown status sends nothing and changes nothing |
| OrderDetails.OrderDetailsPage.HandlePaymentUpdate | src/Pages/Orders/index.js:132-145 | sends the negated paid flag; on success the order's flag flips |
| OrderList.FilteredOrders | src/Pages/Order/index.js:68-74 | an order is listed exactly when its id, status or customer name contains the search ignoring case, and the status filter is `All` or the order's status ignoring case |
| OrderList.FilteredOrdersKeepOrder | src/Pages/Order/index.js:68-74 | the list keeps its order; an empty search with `All` lists every order |
| OrderList.TotalPages | src/Pages/Order/index.js:107-110 | `Math.ceil(n / 8)`: the fewest pages of eight that hold all orders, and 0 exactly for no orders |
| OrderList.PageSlice | src/Pages/Order/index.js:107-110 | a page holds at most eight orders, which are the orders at its positions; it is non-empty exactly for pages up to the page count, and full before the last page |
| OrderList.PagesUpToIsPrefix | src/Pages/Order/index.js:107-110 | the first k pages, one after another, are the first 8k orders |
| OrderList.PagesCoverList | src/Pages/Order/index.js:107-110 | all the pages together are the whole filtered list, in order |
| OrderList.GetPageNumbers | src/Pages/Order/index.js:112-137 | the loop builds exactly the bar that `PageNumbers` describes |
| OrderList.WindowAroundCurrent | src/Pages/Order/index.js:112-137 | the numbered window holds min(5, total) consecutive pages and contains the current page |
| OrderList.PageNumbersAt | src/Pages/Order/index.js:112-137 | the bar is page 1 and an ellipsis before the window, then the window's pages, then an ellipsis and the last page |
| OrderList.PageNumbersEnds | src/Pages/Order/index.js:112-137 | the bar starts at page 1, ends at the last page and shows the current page |
| OrderList.PageNumbersOrdered | src/Pages/Order/index.js:112-137 | adjacent numbers differ by one; an ellipsis always sits between two numbers that skip at least one page; every number is a real page |
| OrderList.PageNumbersIncreasing | src/Pages/Order/index.js:112-137 | the page numbers on the bar strictly increase |
| OrderList.EllipsisRules | src/Pages/Order/index.js:112-137 | the leading ellipsis shows exactly when the window starts after page 2, and the trailing one exactly when it ends before the second-to-last page |
| OrderList.PageAfterClick | src/Pages/Order/index.js:309-321 | clicking a number goes to that page; clicking an ellipsis does nothing |
| OrderList.ClickKeepsPageInRange | src/Pages/Order/index.js:309-321 | any click on the bar leaves the page within 1..total |
| OrderList.StalePageShowsNoOrders | src/Pages/Order/index.js:107-110 | as written: a current page beyond the page count shows an empty table while both page buttons stay enabled |
| OrderList.StalePageReachable | src/Pages/Order/index.js:68-74 | as written: page 2 of nine orders, filtered to the single `shipped` order, shows nothing |
| OrderList.OrderListPage.constructor | src/Pages/Order/index.js:24-31 | no orders, empty search, `All`, page 1 |
| OrderList.OrderListPage.SetOrders | src/Pages/Order/index.js:46 | corrected: new orders reset the page to 1; the page stays in range |
| OrderList.OrderListPage.SetSearchQuery | src/Pages/Order/index.js:175 | corrected: a new search resets the page to 1; the page stays in range |
| OrderList.OrderListPage.SetStatusQuery | src/Pages/Order/index.js:155 | corrected: a new status filter resets the page to 1; the page stays in range |
| OrderList.OrderListPage.CurrentOrders | src/Pages/Order/index.js:300 | the shown orders are the current page's slice, never empty while any order matches |
| OrderList.OrderListPage.PreviousPage | src/Pages/Order/index.js:302-308 | enabled above page 1; goes back one page |
| OrderList.OrderListPage.NextPage | src/Pages/Order/index.js:323-329 | enabled below the last page; goes forward one page |
| OrderList.OrderListPage.ClickEntry | src/Pages/Order/index.js:309-321 | a click on the bar moves to the clicked page and stays in range |
| EmployeeForms.HandleInputChange | src/Pages/Employee/addEmployee.js:41-47 | only the named input changes |
| EmployeeForms.ChangeRole | src/Pages/Employee/addEmployee.js:187-192 | only the role changes |
| EmployeeForms.TypeCnic | src/Pages/Employee/addEmployee.js:27-32 | the CNIC becomes the masked input's output, at most 15 characters; nothing else changes |
| EmployeeForms.TypePhone | src/Pages/Employee/addEmployee.js:34-39 | the phone becomes the masked input's output, at most 12 characters; nothing else changes |
| EmployeeForms.ValidateForm | src/Pages/Employee/addEmployee.js:49-71 | checks in order a blank name, a CNIC that is not 15 characters, a phone that is not 12, a blank password and an empty role; each message appears exactly when the earlier checks pass and its own fails |
| EmployeeForms.AddRequest | src/Pages/Employee/addEmployee.js:73-74 | the employee is sent exactly when the form is valid, unchanged |
| EmployeeForms.TypedLengthsPass | src/Pages/Employee/addEmployee.js:49-71 | typed CNIC and phone pass their length checks exactly when 13 and 11 digits were typed |
| EmployeeForms.CheckEdit | src/Pages/Employee/editEmployee.js:61-81 | an edit is sent exactly when the CNIC has 15 and the phone 12 characters |
| EmployeeForms.EditGateIgnoresOtherFields | src/Pages/Employee/editEmployee.js:64-72 | the edit check ignores name, password and role; every valid new employee also passes it; a blank name can be saved |
| Items.CheckNewItem | src/Pages/Items/index.js:29-37 | accepted exactly when the trimmed name is non-empty and the price is positive; "name required" exactly for a blank name |
| Items.CheckEditedItem | src/Pages/Items/index.js:48-52 | accepted exactly for a non-blank name; no price check |
| Items.EditCheckWeaker | src/Pages/Items/index.js:29-52 | every item that may be added may be saved as an edit, and an edit with price 0 would be refused as new |
| Items.ItemsAfterEdit | src/Pages/Items/index.js:59 | the reply replaces every item with the edited id, in place; the length is unchanged |
| Items.ItemsAfterDelete | src/Pages/Items/index.js:71 | exactly the items with another id remain |
| Items.DeleteKeepsOrder | src/Pages/Items/index.js:68-76 | deletion keeps the list order |
| Items.AbsentIdChangesNothing | src/Pages/Items/index.js:59-71 | editing or deleting an id that is not listed changes nothing |
| Items.EditThenDeleteIsDelete | src/Pages/Items/index.js:59-71 | deleting an item after editing it is the same as deleting it |
| Items.SubmitAction | src/Pages/Items/index.js:184 | the submit button adds exactly when not editing, and otherwise edits the stored id |
| Items.CancelledEditSubmitsNowhere | src/Pages/Items/index.js:118-124 | as written: after "Cancel Editing" the page still edits, with no id, and the list does not change |
| Items.WithOptionChange | src/Pages/Items/index.js:85-93 | an option's name or customizations change; other fields change nothing; other options stay |
| Items.WithCustomization | src/Pages/Items/index.js:95-99 | one customization of one option changes; nothing else changes |
| Items.WithNewOption | src/Pages/Items/index.js:101-103 | a blank option is appended |
| Items.WithNewCustomization | src/Pages/Items/index.js:105-109 | an empty customization is appended to one option |
| Items.NewCustomizationThenType | src/Pages/Items/index.js:95-109 | adding a customization and typing into it appends exactly the typed value |
| Items.ItemsPage.constructor | src/Pages/Items/index.js:9-18 | the fetched items and a blank form, not editing |
| Items.ItemsPage.ResetForm | src/Pages/Items/index.js:78-83 | as written: blank name, price 0, one blank option, no id; the editing flag stays |
| Items.ItemsPage.CancelEditing | src/Pages/Items/index.js:118-124 | corrected: the form is blanked and editing ends, so the next submit adds |
| Items.ItemsPage.StartEditing | src/Pages/Items/index.js:223-229 | the form takes the item's fields and the next submit edits that item |
| Items.ItemsPage.SetName | src/Pages/Items/index.js:132 | only the name changes |
| Items.ItemsPage.SetPrice | src/Pages/Items/index.js:142 | only the price changes |
| Items.ItemsPage.HandleAddItem | src/Pages/Items/index.js:29-46 | the verdict is the add check; on acceptance and a reply, the item is appended and the form reset; otherwise nothing changes |
| Items.ItemsPage.HandleEditItem | src/Pages/Items/index.js:48-66 | the verdict is the edit check; on acceptance and a reply, the list is updated, the form reset and editing ends; otherwise nothing changes |
| Items.ItemsPage.HandleDeleteItem | src/Pages/Items/index.js:68-76 | on success the item leaves the list; the form stays |
| Items.ItemsPage.HandleOptionChange | src/Pages/Items/index.js:85-93 | only the options change |
| Items.ItemsPage.HandleCustomizationChange | src/Pages/Items/index.js:95-99 | only the options change |
| Items.ItemsPage.HandleAddOption | src/Pages/Items/index.js:101-103 | a blank option is appended; nothing else changes |
| Items.ItemsPage.HandleAddCustomization | src/Pages/Items/index.js:105-109 | an empty customization is appended; nothing else changes |
| EmployeeList.FilteredEmployees | src/Pages/Employee/index.js:96-101 | listed exactly when the name or phone contains the search ignoring case, and the role filter is `All` or the role ignoring case |
| EmployeeList.FilteredEmployeesKeepOrder | src/Pages/Employee/index.js:96-101 | the list keeps its order; an empty search with `All` lists everyone |
| EmployeeList.PaymentRequest | src/Pages/Employee/index.js:77-94 | a payment is sent exactly when the amount is positive, unchanged |
| EmployeeList.LabelOf | src/Pages/Employee/index.js:184-189 | "Debit" exactly for a negative balance |
| EmployeeList.LabelRoundTrip | src/Pages/Employee/index.js:184-189 | the label and its absolute amount give back the balance; negating a non-zero balance flips the label and keeps the amount |
| EmployeeView.AssignedProducts | src/Pages/Employee/viewEmployee.js:59-61 | exactly the products whose id the employee lists |
| EmployeeView.Completed | src/Pages/Employee/viewEmployee.js:68-71 | exactly the products with status `completed` |
| EmployeeView.Pending | src/Pages/Employee/viewEmployee.js:72-75 | exactly the products with any other status |
| EmployeeView.ChartSeries | src/Pages/Employee/viewEmployee.js:78 | [completed, pending], which add up to the number of products |
| EmployeeView.CompletedPendingPartition | src/Pages/Employee/viewEmployee.js:68-75 | each product is in exactly one of the two lists, and both keep the list order |
| EmployeeView.StatsOf | src/Pages/Employee/viewEmployee.js:140-144 | the total is the number of products and the completed count is the chart's first value |
| ItemAssignment.Cutters | src/Components/ItemDetails/ItemDetails.js:26 | exactly the employees whose role is `cutter` |
| ItemAssignment.Tailors | src/Components/ItemDetails/ItemDetails.js:27 | exactly the employees whose role is `tailor` |
| ItemAssignment.RoleSplit | src/Components/ItemDetails/ItemDetails.js:26-27 | no employee is in both lists, and no employee with a role the employee form offers is in either |
| ItemAssignment.AssignmentRequest | src/Components/ItemDetails/ItemDetails.js:50-62 | the assignment is sent exactly when both selectors hold a non-empty recorded value (possibly the placeholder text, since the selects record on click), with those two values |
| ItemAssignment.OnlyPendingAssignable | src/Components/ItemDetails/ItemDetails.js:97 | the assignment controls show for a pending item and for no other status |
| Dashboard.PendingProducts | src/Pages/Home/index.js:46 | exactly the products with status `pending` |
| Dashboard.PendingKeepsOrder | src/Pages/Home/index.js:46 | in product-list order |
| Dashboard.CountOfType | src/Pages/Home/index.js:50 | a per-type count never exceeds the number of products |
| Dashboard.ProductCounts | src/Pages/Home/index.js:49-50 | one count per listed type, in list order, each the number of products of exactly that type |
| Dashboard.ListedCountBound | src/Pages/Home/index.js:49-50 | the products of listed types are at most all products |
| Dashboard.CountsAddUp | src/Pages/Home/index.js:49-50 | the counts add up to the number of products of listed types, at most all products |
| Dashboard.UnlistedNotCounted | src/Pages/Home/index.js:49-50 | a product of an unlisted type changes no count |
| ClothCarousel.FilteredCloths | src/Components/productCarousal.js:36-42 | a fabric shows exactly when its name, type and colour each contain their query, ignoring case |
| ClothCarousel.FilteredClothsKeepOrder | src/Components/productCarousal.js:36-42 | the list keeps its order, and three empty queries show every fabric |
| ClothCarousel.FitsGarmentExactly | src/Components/productCarousal.js:45-55 | a fabric fits a garment exactly for the six listed (family, garment) pairs |
| ClothCarousel.FilteredProducts | src/Components/productCarousal.js:45-55 | exactly the filtered fabrics whose family fits the garment |
| ClothCarousel.FilteredProductsKeepOrder | src/Components/productCarousal.js:45-55 | in the filtered order |
| ClothCarousel.OwnQueriesMatch | src/Components/productCarousal.js:57-62 | a fabric matches queries made of its own name, type and colour |
| ClothCarousel.Carousel.constructor | src/Components/productCarousal.js:32-34 | empty queries, nothing selected |
| ClothCarousel.Carousel.SetItem | src/Components/productCarousal.js:57-62 | selects the fabric and copies its name, colour and type into the queries, so it still matches the queries |
| ClothCatalog.FirstIndex | src/Pages/Products/index.js:58 | the first position of a value in a list |
| ClothCatalog.Distinct | src/Pages/Products/index.js:58 | the same values as the list, each once |
| ClothCatalog.DistinctKeepsFirstOccurrenceOrder | src/Pages/Products/index.js:58 | the distinct values follow their first occurrences |
| ClothCatalog.UniqueTypes | src/Pages/Products/index.js:58 | every cloth type appears exactly once |
| ClothCatalog.SectionCloths | src/Pages/Products/index.js:59-61 | a section holds exactly the fabrics whose product type is exactly that section's (`coat`, `qameez suit` or `shirt`) |
| ClothCatalog.SectionsSplitCatalogue | src/Pages/Products/index.js:59-61 | the three sections are pairwise disjoint, hold at most the catalogue, and hold all of it when every fabric has one of the three families |
| ClothCatalog.SectionFilter | src/Pages/Products/index.js:98-129 | a fabric shows exactly when the search occurs in its name, type, code or colour ignoring case, and the type filter is `All` or its type ignoring case |
| ClothCatalog.SectionFilterProperties | src/Pages/Products/index.js:98-129 | the section keeps its order; an empty search with `All` shows it whole; a chosen type shows only fabrics of that type |
| ClothCatalog.ChosenTypeShowsItsCloths | src/Pages/Products/index.js:171-178 | each type offered by the drop-down belongs to some fabric and, with an empty search, shows exactly the section's fabrics of that type |
| ClothCatalog.CanAddCloth | src/Pages/Products/index.js:243 | a cloth is saved only with name, type, code, colour and image present and with a non-negative price and quantity; a negative number or an empty price is refused |
| ClothCatalog.InitialDraftAccepted | src/Pages/Products/index.js:36-46 | saving untouched fields sends the form's initial values, and a quantity of 0 is allowed |
| ClothCatalog.TypedZeroPriceAccepted | src/Pages/Products/index.js:223 | a typed "0" price passes the check; only the number 0 would be refused |

## Left out

- Server calls (axios) are not modelled as I/O. Each handler receives the reply, or whether the request succeeded, as a parameter. Refetching after an update is not modelled.
- Login, `localStorage` tokens and navigation are not modelled; they are routing concerns.
- Rendering is not modelled: JSX layout, modals, sliders, charts, progress-bar widths, toasts and loading or uploading flags.
- Upload contents are not modelled. `FormData` and `File` objects are reduced to id, MIME type and size, and the server's text extraction is a parameter.
- Case folding is ASCII only; JavaScript's Unicode case mapping is not modelled.
- Number parsing is not modelled. Measurements are reals, prices and balances are integers, and `NaN` does not arise.
- The date filter of the orders list (date-fns) is not modelled: it needs a clock and a date library.
- React's asynchronous state batching is not modelled. Each handler's updates apply at once, in source order.
- Aliasing is not modelled. Item editing shares `item.options` with the listed item, and the wizard's product objects are mutated in place. The model copies values, so those shared mutations are not captured.
- `handlePlaceOrder` is not modelled. The final submission only posts the wizard's state.
- The measurement save inside `handleAddCustomer` is reduced to a flag in the reply (`AddCustomerReply.Added.measurementsSaved`).
- `maxLength` attributes on the inputs are not modelled: the browser cuts typed or pasted text to 12 or 15 characters before the mask runs, while the model applies the mask to the whole text, so pasted text with separators ("0300 123 4567") can keep digits the page would drop.
- PlaceOrder.PlaceOrderWizard.HandleFileUpload: the measurement panel never calls this handler, so the flag it sets stays false in practice; the model keeps the handler as written.
- Dashboard.PendingProducts: the Home page's mount effect (src/Pages/Home/index.js:43-54) has no dependencies and filters `products` before `getProducts` resolves, so the page computes the pending list over the empty list; the model computes it over a fetched list.
- Dashboard.ProductCounts: computed in the same mount effect, so the page's counts are all zero; the model computes them over a fetched list.
- ClothCarousel.Carousel: the selected fabric is state of the parent page passed in as a prop; the model keeps it as a field of the carousel.
- The cloth catalogue page (src/Pages/Products/index.js) is not routed (src/App.js:39 is commented out). Its logic is modelled all the same.

## Findings

| source | as written | input that shows it | evidently intended | confidence | as-written member | corrected member |
|---|---|---|---|---|---|---|
| src/Pages/Order/index.js:31 | the current page is kept when the search, the status filter or the order list changes | nine orders, one `shipped`; go to page 2, then filter by `shipped`: the table is empty though one order matches | any change of the filtered list returns to page 1, so the page shown always exists | medium, not executed | OrderList.StalePageReachable | OrderList.OrderListPage.SetStatusQuery |
| src/Pages/Items/index.js:119 | "Cancel Editing" calls `resetForm`, which clears the form but leaves `isEditing` true | edit an item, press "Cancel Editing", type a new item and submit: an edit with a null id is sent and nothing is added | cancelling ends editing, so the next submit adds a new item | high, not executed | Items.CancelledEditSubmitsNowhere | Items.ItemsPage.CancelEditing |

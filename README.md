# retail-billkeeper, modelled in Dafny

retail-billkeeper is a browser point-of-sale app for a small Indian retail store. It keeps a
product catalogue, stock batches with expiry dates, bills with CGST/SGST lines, and the store's
own settings in the browser database. It builds UPI payment links for QR codes, prints thermal
receipts and shows a sales dashboard.

This project models the logic of that app that can be stated precisely:

- the UPI payment link builder, with the application/x-www-form-urlencoded serializer it relies
  on (section 5.2 of the WHATWG URL Standard, with UTF-8 encoding);
- the UPI id validator;
- the list logic of the data hooks: product search, the inventory/product join, low-stock
  selection, and bill date filtering with newest-first ordering;
- the rewrites applied to records on save;
- batch expiry classification;
- the quantity counters of the product card and the bill line;
- the four forms (add stock, inventory batch, product, store settings): their guards, field
  updates, parse fallbacks and resets;
- the receipt's tax totals and display rules;
- the dashboard's aggregates.

Pure logic is written as functions and lemmas. Components whose state changes step by step are
classes whose methods update fields:

- `ProductCard.Card`
- `AddStockForm.Form`
- `InventoryFormDialog.Dialog`
- `ProductFormDialog.Dialog`
- `Settings.Page`

The bill sort is an in-place insertion sort on an array.

Conventions of the model:

- Timestamps are whole milliseconds since the epoch, and a day is 86 400 000 ms.
- Money is `real`.
- A call to the outside world (the database, `onSave`) becomes a `saveSucceeds` parameter.
- A rejected or failed save is an `Outcome` value carrying the message the user would see.

Shared modules:

| module | contents |
|---|---|
| `Wrappers` | `Option` and `Result` |
| `Seqs` | `filter`, sums, `slice` |
| `Text` | lower-casing, substring search, JavaScript `trim` |
| `Numeric` | decimal text, `parseInt`, `parseFloat` |
| `FormUrlEncoded` | UTF-8 and the urlencoded serializer and parser |
| `FormOutcome` | the result of a form submit |

## Model

| member | source | states |
|---|---|---|
| UpiUtils.GenerateUpiUrl | src/lib/upiUtils.ts:17-42 | The link starts with `upi://pay?`. Parsing its query back as application/x-www-form-urlencoded gives exactly the parameter list, names and values, in order. |
| UpiUtils.UpiParamsShape | src/lib/upiUtils.ts:19-41 | `pa` is first and `pn` second, even with an empty payee name. `cu=INR` is last. There is one extra parameter per present optional field, and every name is one of pa, pn, am, tn, mc, cu. |
| UpiUtils.UpiParamsLookup | src/lib/upiUtils.ts:26-39 | `am` is present exactly when the amount is present and non-zero. `tn` and `mc` are present exactly when non-empty, carrying the given text. `cu` is always `INR`. |
| UpiUtils.LookupInParams | src/lib/upiUtils.ts:22-39 | Looking a name up in the query looks through the required pair, the amount, note and merchant-code parts, and the currency, in that order. |
| FormUrlEncoded.ParseSerialize | src/lib/upiUtils.ts:19-41 | Parsing the serialization of any list of name/value pairs gives back that list. |
| FormUrlEncoded.TextRoundTrip | src/lib/upiUtils.ts:22-39 | Decoding the encoding of any string gives the string back. |
| FormUrlEncoded.Utf8RoundTrip | src/lib/upiUtils.ts:22-39 | Decoding the UTF-8 encoding of any string gives the string back. |
| FormUrlEncoded.EncodeByte | src/lib/upiUtils.ts:22-39 | A byte stays one character exactly when it is a space (written `+`) or an ASCII letter, digit or one of `*-._`. Any other byte becomes `%` and two hex digits whose value is the byte. |
| UpiUtils.PaymentNote | src/components/UPIQRCode.tsx:35 | The note is `Bill #<id>` for a non-zero bill id, else `Payment`; it is never empty. |
| UpiUtils.QrLinkCarriesNote | src/components/UPIQRCode.tsx:31-38 | The QR code's link always carries the payment note as `tn`, and no merchant code. |
| UpiUtils.IsValidUpiIdIff | src/lib/upiUtils.ts:71-75 | The scanning automaton accepts exactly the strings of the pattern `^[a-zA-Z0-9._-]+@[a-zA-Z0-9]+$`. |
| UpiUtils.ValidUpiIdShape | src/lib/upiUtils.ts:73 | An accepted id has exactly one `@`, with something on both sides, and no `.` or `-` after it. |
| UpiUtils.UpiIdAccepted | src/lib/upiUtils.ts:73 | `shop@upi` is accepted. |
| UpiUtils.UpiIdDottedProviderRejected | src/lib/upiUtils.ts:73 | `a@ok.bank` is rejected. |
| UpiUtils.UpiIdEmptySideRejected | src/lib/upiUtils.ts:73 | `@upi` and `name@` are rejected. |
| Db.FetchProducts | src/lib/db.ts:292-323 | The product list is the stored list filtered by the category filter, then the search filter, each only when given. |
| Db.ProductListing | src/lib/db.ts:297-315 | Every listed product is stored and matches. Every stored product that matches is listed. The list is a subsequence of the stored order. |
| Db.NoFilterListsAll | src/lib/db.ts:300-313 | With no category and no query, every stored product is listed. |
| Db.BarcodeSearchIsCaseSensitive | src/lib/db.ts:307-313 | The query is lower-cased but the barcode is not, so typing an upper-case barcode does not find it. |
| Text.ContainsIff | src/lib/db.ts:310-311 | `includes` holds exactly when the needle occurs at some position. |
| Db.FindProduct | src/lib/db.ts:377 | `find` gives the first product with the id, or none when no product has it. |
| Db.Join | src/lib/db.ts:376-379 | The join has one entry per batch, in order, each carrying that batch unchanged and the product `find` returns for its id. |
| Db.JoinAttachesFirstMatch | src/lib/db.ts:376-379 | Each entry carries its batch and the first product with a matching id, or no product when none matches. |
| Db.InventoryListing | src/lib/db.ts:382-384 | Without `lowStockOnly`, every batch is listed in order. With it, exactly the batches whose quantity is at most their threshold are listed, in order. |
| Db.DateRangeBounds | src/lib/db.ts:427-447 | A bill is kept exactly when it is on or after the start and before the day after the end. The whole end day is kept and the next day is not. |
| Db.FetchBills | src/lib/db.ts:419-460 | The bills returned are newest first and are a permutation of the stored bills in the date range. |
| Db.SortNewestFirst | src/lib/db.ts:450 | After the sort the array is newest first and holds the same bills. |
| Db.InsertNewest | src/lib/db.ts:450 | One insertion step extends the newest-first prefix by one element and keeps the same bills. |
| Db.WithCurrentDate | src/lib/db.ts:466-476 | `addBill` stores the bill with the current time as its date and every other field unchanged. |
| Db.CheckUpdatable | src/lib/db.ts:339-348 | `updateProduct` accepts exactly the products with a non-zero id, unchanged. Any other product gets the "Product ID is required for updates" error. |
| Db.WithStoreId | src/lib/db.ts:514-522 | The store settings are written under the `storeInfo` key whatever id was passed, with every other field unchanged. |
| InventoryBatchList.GetExpiryStatus | src/components/InventoryBatchList.tsx:28-45 | No expiry gives "No Expiry". Otherwise the batch is expired exactly when its expiry is before now, and valid exactly when it is at least 30 days away. Each status carries its label. |
| InventoryBatchList.ExpiryWorsensOverTime | src/components/InventoryBatchList.tsx:28-45 | As time passes a batch only moves from valid to expiring to expired. |
| InventoryBatchList.ExpiryAtNowIsExpiring | src/components/InventoryBatchList.tsx:35-41 | A batch expiring exactly now is "Expiring Soon", not expired. |
| InventoryBatchList.BadgeVariant | src/components/InventoryBatchList.tsx:48-57 | Expired maps to destructive, expiring to secondary, and valid to outline, each in both directions. |
| InventoryBatchList.BatchesOf | src/components/InventoryBatchList.tsx:25 | The listed batches are exactly the batches whose product id is the product's id. |
| InventoryBatchList.UnsavedProductHasNoBatches | src/components/InventoryBatchList.tsx:25 | A product without an id has no batches. |
| InventoryBatchList.TotalQuantityOfProduct | src/components/InventoryBatchList.tsx:72 | The total is the sum over all batches, with the batches of other products counted as 0. |
| InventoryBatchList.RenderBatchList | src/components/InventoryBatchList.tsx:59-132 | The empty message and no cards appear exactly when no batch belongs to the product. Otherwise the view shows the total quantity and one card per batch, in order, with its expiry status and the badge of that status. |
| ProductCard.Pressed | src/components/ProductCard.tsx:25-36 | Plus adds exactly 1 unless the stock is reached. Minus takes exactly 1 unless the counter is at 1. The counter stays at least 1 and within the stock. |
| ProductCard.PressesStayInBounds | src/components/ProductCard.tsx:25-36 | No run of presses takes the counter below 1, or above a stock it started within. |
| ProductCard.DisabledButtonsAreNoOps | src/components/ProductCard.tsx:134-146 | A button is disabled exactly when pressing it would change nothing. |
| ProductCard.IsLowStock | src/components/ProductCard.tsx:45 | The low-stock badge shows exactly when a batch is shown and its quantity is at most its threshold. |
| ProductCard.Card.constructor | src/components/ProductCard.tsx:23 | A new counter is 1. |
| ProductCard.Card.IncrementQuantity | src/components/ProductCard.tsx:25-30 | The counter becomes the plus press of its old value, and the card stays valid. |
| ProductCard.Card.DecrementQuantity | src/components/ProductCard.tsx:32-36 | The counter becomes the minus press of its old value, and the card stays valid. |
| ProductCard.Card.AddToBill | src/components/ProductCard.tsx:38-43 | With a callback, it hands over the product and the old count and resets the counter to 1. Without one, nothing changes. |
| BillItem.IncrementEvent | src/components/BillItem.tsx:20-24 | With a callback, it emits the product id and the quantity plus one, with no upper bound. |
| BillItem.DecrementEvent | src/components/BillItem.tsx:26-30 | It emits the product id and the quantity minus one exactly when there is a callback and the quantity is above 1. |
| BillItem.RemoveEvent | src/components/BillItem.tsx:32-36 | It emits the product id exactly when there is a callback. |
| BillItem.DisabledMeansSilent | src/components/BillItem.tsx:84-107 | With both callbacks present, on an editable line, a button is disabled exactly when it would emit nothing, and the remove button, which is shown, emits. |
| BillItem.IncrementThenDecrement | src/components/BillItem.tsx:20-30 | Applying an increment and then a decrement gives back the line. |
| BillItem.UpdatesKeepQuantityPositive | src/components/BillItem.tsx:20-30 | Applied updates never take a line below 1. |
| AddStockForm.GenerateBatchId | src/components/AddStockForm.tsx:25 | The id is `BATCH-` and the last six decimal digits of the clock, or all of them for a shorter number. |
| AddStockForm.BatchIdExample | src/components/AddStockForm.tsx:25 | The clock reading 1700000012345 gives `BATCH-012345`. |
| Numeric.LastDigitsOfDecimal | src/components/AddStockForm.tsx:25 | The last k characters of a number of at least k digits are its last k digits. |
| AddStockForm.CheckNewStock | src/components/AddStockForm.tsx:33-41 | The form is accepted exactly when the quantity is positive and the location is non-empty. The quantity is checked first, each with its message, and a location of spaces passes. |
| Numeric.IntegerInput | src/components/AddStockForm.tsx:87 | `parseInt(value) || 0`, shared by the quantity input here and the quantity and threshold inputs of InventoryFormDialog.tsx:60-62: a text that parses to an integer gives that integer; otherwise the input is 0. |
| AddStockForm.ThresholdInput | src/components/AddStockForm.tsx:140 | A text that parses to a non-zero integer gives that integer; otherwise the input is 5, so it is never 0. |
| AddStockForm.ThresholdOfDecimal | src/components/AddStockForm.tsx:140 | Typing any whole number gives that number as the threshold, except 0, which gives 5. |
| AddStockForm.EmptyThreshold | src/components/AddStockForm.tsx:140 | Clearing the threshold input gives 5. |
| AddStockForm.ThresholdInputExamples | src/components/AddStockForm.tsx:140 | `0` and an empty input give 5, and `12` gives 12. |
| Numeric.ParseIntOrDecimal | src/components/AddStockForm.tsx:140 | The fallback form of `parseInt` reads back the text of any whole number except 0. |
| AddStockForm.Form.constructor | src/components/AddStockForm.tsx:23-28 | A new form has quantity 1, an empty location, a generated batch id, expiry a year ahead, purchase now and threshold 5. |
| AddStockForm.Form.EnterQuantity | src/components/AddStockForm.tsx:87 | Only the quantity changes, to the parsed input. |
| AddStockForm.Form.EnterLocation | src/components/AddStockForm.tsx:97 | Only the location changes. |
| AddStockForm.Form.EnterBatchId | src/components/AddStockForm.tsx:109 | Only the batch id changes. |
| AddStockForm.Form.PickPurchaseDate | src/components/AddStockForm.tsx:120 | Only the purchase date changes. |
| AddStockForm.Form.PickExpiryDate | src/components/AddStockForm.tsx:128 | Only the expiry date changes. |
| AddStockForm.Form.EnterThreshold | src/components/AddStockForm.tsx:140 | Only the threshold changes, to the parsed input. |
| AddStockForm.Form.Submit | src/components/AddStockForm.tsx:30-69 | A refused form changes nothing. An accepted one saves exactly its batch. A save resets every field except the threshold and closes the dialog. A failure reports "Failed to add stock" and changes nothing. |
| InventoryFormDialog.Blank | src/components/InventoryFormDialog.tsx:27-33 | A blank batch has the product id, quantity 0, no location, threshold 5, a generated batch id and no dates. |
| InventoryFormDialog.Editable | src/components/InventoryFormDialog.tsx:37-44 | The form copy keeps the five editable fields and drops both dates. |
| InventoryFormDialog.EditableIdempotent | src/components/InventoryFormDialog.tsx:37-44 | Copying twice is copying once, and a batch without dates is its own copy. |
| InventoryFormDialog.CheckInventory | src/components/InventoryFormDialog.tsx:71-79 | The form is accepted exactly when the quantity is not negative and the trimmed location is non-empty. The quantity is checked first. |
| Text.TrimEmptyIff | src/components/InventoryFormDialog.tsx:76 | A string trims to empty exactly when all of it is white space. |
| InventoryFormDialog.GuardExamples | src/components/InventoryFormDialog.tsx:71-79 | Quantity 0 is accepted, a location of spaces is refused, and quantity -1 is refused. |
| InventoryFormDialog.Dialog.constructor | src/components/InventoryFormDialog.tsx:27-34 | A new form is the blank batch of the given product, or of product 0, and nothing is submitting. |
| InventoryFormDialog.Dialog.Load | src/components/InventoryFormDialog.tsx:36-55 | Editing copies the batch's editable fields. Else a non-zero product id starts a blank batch. Else the form is kept. |
| InventoryFormDialog.Dialog.HandleChange | src/components/InventoryFormDialog.tsx:57-65 | Only the named field changes, and the numeric ones are parsed. |
| InventoryFormDialog.Dialog.Submit | src/components/InventoryFormDialog.tsx:67-91 | A refused form is not saved. An accepted one is saved exactly as it is. The dialog closes only after a save, and `isSubmitting` ends false either way. |
| ProductFormDialog.PriceInput | src/components/ProductFormDialog.tsx:53 | A text that parses to a number gives that number; one that does not gives 0. |
| Numeric.ParseFloatExample | src/components/ProductFormDialog.tsx:53 | `parseFloat(" 12.50")` is 12.5. |
| ProductFormDialog.CheckProduct | src/components/ProductFormDialog.tsx:61-69 | The form is accepted exactly when the trimmed name is non-empty and the price is positive. The name is checked first, each with its message. |
| ProductFormDialog.ToSave | src/components/ProductFormDialog.tsx:73-76 | The saved product is the form with the edited product's id, or with no id when adding. |
| ProductFormDialog.AddingSavesNoId | src/components/ProductFormDialog.tsx:73-76 | Adding never saves an id. |
| ProductFormDialog.BlankFormRefusedForName | src/components/ProductFormDialog.tsx:61-69 | A blank form is refused for its name before its price. |
| ProductFormDialog.Dialog.constructor | src/components/ProductFormDialog.tsx:25-32 | A new form is blank, not editing and not submitting. |
| ProductFormDialog.Dialog.Load | src/components/ProductFormDialog.tsx:34-47 | The form becomes a copy of the product, or blank. |
| ProductFormDialog.Dialog.HandleChange | src/components/ProductFormDialog.tsx:49-55 | Only the named field changes, and the price is parsed. |
| ProductFormDialog.Dialog.Submit | src/components/ProductFormDialog.tsx:57-84 | A refused form is not saved. An accepted one is saved with the right id. The dialog closes only after a save, and `isSubmitting` ends false either way. |
| Settings.FormOf | src/pages/Settings.tsx:27-39 | The loaded form takes the record's id, name, address, phone, email, UPI id and GSTIN, and nothing else. |
| Settings.CheckSettings | src/pages/Settings.tsx:43-46 | The save is refused, with its message, exactly when the UPI id is non-empty and not valid. |
| Settings.SettingsGuardExamples | src/pages/Settings.tsx:43-46 | An empty UPI id and `shop@upi` are saved, and `a@ok.bank` is refused. |
| Settings.LoadThenSave | src/pages/Settings.tsx:27-55 | Loading a record and saving it straight back keeps its seven text fields and drops the receipt size and logo. |
| Settings.Page.constructor | src/pages/Settings.tsx:16-24 | The initial form has the settings key as id and every other field empty. |
| Settings.Page.Load | src/pages/Settings.tsx:27-39 | A loaded record fills the form. While there is none, nothing changes. |
| Settings.Page.HandleInputChange | src/pages/Settings.tsx:57-63 | Only the field named by the input changes. |
| Settings.Page.SaveSettings | src/pages/Settings.tsx:41-55 | A refused form is not saved. Otherwise the form is written under the settings key. |
| BillPrint.UniformCgst | src/components/BillPrint.tsx:13 | With one CGST rate on every line, the CGST total is that rate applied to the sum of the amounts. |
| BillPrint.TaxNonNegative | src/components/BillPrint.tsx:13-14 | Non-negative amounts and rates give non-negative tax totals. |
| BillPrint.TaxSplits | src/components/BillPrint.tsx:13-14 | The tax of two groups of lines together is the sum of their taxes. |
| BillPrint.TaxExample | src/components/BillPrint.tsx:13-14 | A line of 200 at 9% CGST and 9% SGST carries 18 of each. |
| BillPrint.BillNoOf | src/components/BillPrint.tsx:35 | The bill number is printed when it is non-empty, else the id, else nothing. |
| BillPrint.CustomerLine | src/components/BillPrint.tsx:40-42 | The customer line appears exactly when there is a non-empty name, with the phone in parentheses only when it is non-empty. |
| BillPrint.SizeOr | src/components/BillPrint.tsx:20 | An unset or 0 size gives the default, so a non-zero default never yields a zero size; any other size is kept. |
| BillPrint.DefaultReceiptSize | src/components/BillPrint.tsx:20 | Without size settings the receipt is 80 mm by 140 mm. |
| BillPrint.ReferenceLine | src/components/BillPrint.tsx:92 | The reference line appears exactly when there is a non-empty reference. |
| BillPrint.Render | src/components/BillPrint.tsx:13-92 | There is one row per bill line, in order, with its name, quantity, rate and amount. The logo appears only when set. For every bill, the printed subtotal and total are the stored ones, and the printed CGST and SGST are the sums of the line taxes. |
| BillPrint.PrintedTotalIsStored | src/components/BillPrint.tsx:86-87 | A witness bill whose printed total is its stored total while the subtotal plus the printed taxes differ from it. |
| Dashboard.ComputeDashboard | src/pages/Index.tsx:32-121 | Stats appear exactly when there are bills and products, and the chart has seven bars. |
| Dashboard.ChangeOf | src/pages/Index.tsx:69-72 | The badge is positive exactly when today's sales are at least yesterday's. There is no percentage without sales yesterday; otherwise it is the relative change, of either sign. |
| Dashboard.TodayAndYesterdayDisjoint | src/pages/Index.tsx:42-48 | No bill counts both today and yesterday: today's bills and yesterday's together number exactly the bills since yesterday's start. |
| Dashboard.SalesInSplit | src/pages/Index.tsx:46-48 | Sales in two adjacent half-open windows add up to the sales of their union. |
| Dashboard.SalesSinceYesterday | src/pages/Index.tsx:42-48 | Sales since yesterday's start are yesterday's sales plus today's. |
| Dashboard.TotalSalesSplit | src/pages/Index.tsx:41-50 | Total sales are today's plus yesterday's plus older sales, and today's transactions are at most all transactions. |
| Dashboard.DayStartsIncrease | src/pages/Index.tsx:94-99 | Later days of the chart start no earlier than earlier days end. |
| Dashboard.BucketOfBill | src/pages/Index.tsx:101-117 | A bill falls into at most one bar. |
| Dashboard.BucketsSum | src/pages/Index.tsx:101-117 | The bars add up to the sales of the span they cover. |
| Dashboard.ChartMatchesStats | src/pages/Index.tsx:94-117 | The last bar is today. The seven bars add up to the sales of the last seven days. With no future-dated bill, today's bar equals today's sales. |
| Dashboard.InventoryValueOfMatched | src/pages/Index.tsx:53-56 | The stock value is the value of the batches whose product is found, an unmatched batch adding 0. |
| Dashboard.LowStockCountMatchesListing | src/pages/Index.tsx:59-61 | The low-stock count is the length of the low-stock inventory listing. |
| Dashboard.InsertByQuantity | src/pages/Index.tsx:271 | Insertion adds exactly one entry and keeps the rest. |
| Dashboard.InsertKeepsAscending | src/pages/Index.tsx:271 | Inserting into an ascending list keeps it ascending. |
| Dashboard.SortByQuantity | src/pages/Index.tsx:271 | The sorted list is in ascending quantity and is a permutation of the input. |
| Dashboard.ShortListEntries | src/pages/Index.tsx:269-272 | Every short-list entry is an inventory batch with a product. |
| Dashboard.RecentInventoryLowest | src/pages/Index.tsx:269-272 | The short list holds the five batches with a product lowest on stock, or all of them when there are fewer, in ascending quantity. None of them holds more than a batch with a product that was left out. |

## Left out

Outside the model:

- The browser database plumbing (src/lib/db.ts:6-284). It is asynchronous I/O through a browser API. Reads are the model's inputs, and a write's outcome is the `saveSucceeds` parameter.
- The random sample data the database is seeded with.
- `addInventoryBatch`, which the add-stock form takes from `useInventory()` (src/components/AddStockForm.tsx:21) although that hook returns no such member (src/lib/db.ts:410). As written, the call at src/components/AddStockForm.tsx:54 throws inside the `try`, so every accepted submit ends in "Failed to add stock", which is `saveSucceeds` false. The success branch of `AddStockForm.Form.Submit` models the evidently intended call.
- `AddStockForm.Form.Submit`, `InventoryFormDialog.Dialog.Submit` and `ProductFormDialog.Dialog.Submit` model the submit handlers only. The browser's own check of the fields' `required`, `min` and `step` attributes is not modelled: it can block a submit before the handler runs, for example for a blank batch id, a threshold below 1 or a price of 12.345, which the model goes on to save.
- QR image generation (`generateUPIQRCode`). It is a call into a QR-code library; only the link it encodes is modelled.
- Number and date formatting: `toString`, `toFixed`, `toLocaleDateString` and `format`. The amount's text is the parameter `formatAmount` of `UpiUtils.GenerateUpiUrl`, and the receipt and dashboard keep numbers as numbers.
- Toasts, React effects and re-rendering, the `isSubmitting` window while a save is pending, and the `onComplete`/`onRefresh` callbacks. A dialog's `onOpenChange(false)` call is modelled as its `open` field becoming false.
- The other pages and components (Billing, Inventory, BillHistory, LowStockAlert, Navbar, ProductBatchViewer, App), and PDF and print export. They hold no logic beyond what is modelled here.
- Checkout, stock allocation across batches and bill-number generation, which the source does not implement.

Simplifications:

- `Text.ToLower`: lower-cases ASCII letters only. Full Unicode case mapping is not modelled, so category and name matching on non-ASCII text is weaker than the source's.
- `Numeric.ParseFloat`: does not read exponents or `Infinity`. Such inputs read as their leading decimal or as NaN, unlike JavaScript.
- `FormUrlEncoded.Utf8Decode`: a malformed byte sequence is a parse failure rather than U+FFFD. Well-formed input, the only kind the serializer produces, is decoded as the standard says.
- `Dashboard.ComputeDashboard`: takes today's local midnight as a parameter, and its days are a fixed 86 400 000 ms. Daylight-saving days are not modelled.
- `Db.FetchBills`: the sort is specified as newest first and a permutation, not as stable. Bills with equal dates may come out in another order than JavaScript's stable sort gives.
- `Dashboard.SortByQuantity`: likewise not stated to be stable.
- `Db.Payment`: the payment `method` field is called `kind`, because `method` is a keyword in Dafny.
- `InventoryBatchList.GetExpiryStatus`: the status `label` field is called `caption`, because `label` is a keyword in Dafny.
- `Numeric.IntegerInput`: models `parseInt` on the text of a `type="number"` input as on any text. The browser's restriction of that input to numbers is not modelled.

# 3L Variety Store point of sale, modelled in Dafny

This project models the core of a small store's point-of-sale system. It covers:

- the Django back end that keeps a session cart, turns it into a transaction, lowers stock, attaches e-wallet receipts, changes transaction status, and ranks the best-selling products of a period;
- the React cashier screen, with its cart, payment choice, payment records, card-number formatting, product search, login check and camera helpers;
- the barcode scanners of both front ends. Each scanner is a small state machine around the Quagga decoding library, with its own rule against reading the same code twice.

There is one module per source file. Rows that change in place (the session cart, the product and transaction tables, a scanner's state cells) are fields of a class. The cart, table and report methods are proved against pure functions that say what each operation computes, and lemmas about those functions state what the source promises. The scanner methods state their new state cells directly in their contracts. Pure logic (cart updaters, report aggregation, string handling) is written as functions, with lemmas about them.

Conventions used throughout:

- Money is in whole centavos.
- Time is an integer number of milliseconds passed in as a parameter.
- A timer is a count or flag of pending expiries, plus an event method that fires one.
- What the browser, the camera or Quagga answer is a parameter.

Shared modules:

- `Wrappers` defines `Option` and `Result`.
- `StringUtil` holds the JavaScript string primitives the sources use: `toLowerCase`, `trim`, `split`, `includes` and `slice(-4)`.
- `Seqs` holds filtering and subsequence facts.
- `ClientTypes` holds the client's record types (src/types/pos.ts).

Scanner notes:

- No scanner filters detections by a confidence threshold; only duplicates are dropped.
- The duplicate windows are constants fixed at each call site: 1000 ms in `camera-scanner.js`, 3000 ms in the hook, and reset timers of 2000 ms and 3000 ms in the two dialogs.
- `changeCamera` may be called in any state.
- Nothing retries a lost stream.

## Model

| member | source | states |
|---|---|---|
| PosModels.ParsePaymentMethod | pos/models.py:30-34 | a code is read back only as the method whose stored code it is |
| PosModels.PaymentCodeRoundTrip | pos/models.py:30-34 | every payment method's stored code parses back to that method |
| PosModels.ParseStatus | pos/models.py:36-40 | exactly the three status codes are accepted, each read back as its own status |
| PosModels.StatusCodeRoundTrip | pos/models.py:36-40 | every status's code parses back to that status |
| PosModels.CardDetailText | pos/models.py:77-78 | the text is "Card ending in " followed by the last four characters of the card number, or all of them if fewer |
| PosModels.BarcodeLookupAtMostOne | pos/models.py:17 | with unique barcodes, a barcode lookup finds at most one product |
| PosViews.LineIndex | pos/views.py:322-326 | the first cart line for the product, or none, with no earlier line for it |
| PosViews.CartAfterAdd | pos/views.py:304-337 | it fails exactly for a quantity ≤ 0, an unknown product, or stock below the requested quantity, checked in that order (`InvalidQuantity`, `ProductNotFound`, `NotEnoughStock`). An existing line gains the quantity and nothing else changes. A new product gets one line at the end. One line per product with positive quantities is preserved |
| PosViews.AddChecksOnlyRequestedQuantity | pos/views.py:313-315 | the stock check ignores what is already in the cart: with 6 in stock and 5 in the cart, adding 5 succeeds and leaves 10 |
| PosViews.CartAfterUpdate | pos/views.py:358-382 | quantity ≤ 0 (`InvalidQuantity`), a missing line (`NotInCart`) and an existing product with too little stock (`NotEnoughStock`) are refused. Otherwise the line's quantity is set, not added to, other lines are unchanged, and a deleted product skips the stock check |
| PosViews.CartAfterRemove | pos/views.py:406 | exactly the product's lines go, the rest keep their order, and an absent product changes nothing |
| PosViews.FilterKeepsWellFormed | pos/views.py:406 | dropping lines keeps one line per product with positive quantities |
| PosViews.ItemOf | pos/views.py:458-465 | the item created for a line copies its id, name, quantity, price and barcode |
| PosViews.ItemsOf | pos/views.py:457-465 | one item per cart line, in cart order |
| PosViews.CartTotalIsSumOfSubtotals | pos/views.py:445 | the transaction total (sum of price × quantity) equals the sum of its items' subtotals |
| PosViews.NewTransaction | pos/views.py:445-465 | the new transaction is pending whatever the payment method, its total is the sum of its items' subtotals, and it has one item per line |
| PosViews.SaleStep | pos/views.py:457-473 | one more line adds one item and lowers one product's stock |
| PosViews.SellLineKeepsKeys | pos/views.py:468-473 | selling a line keeps the product table keyed by id |
| PosViews.StockAfterSaleEffect | pos/views.py:467-473 | checkout lowers each existing product's stock by its quantity in the cart, with no floor, and adds or removes no product |
| PosViews.QuantityInWellFormedCart | pos/views.py:322-326 | in a well-formed cart a product's quantity is that of its one line, or 0 |
| PosViews.ReceiptUploadError | pos/views.py:519-532 | an upload is refused unless the transaction exists and is a wallet payment, with no receipt yet and an image given. Each failed check gives its own error, in the source's order |
| PosViews.StatusChangeError | pos/views.py:560-569 | only an administrator may set a status, and only one of the three codes. A missing transaction, a missing profile, a non-admin role and a bad status each give their own error, in that order |
| PosViews.PosBackend.constructor | pos/views.py:318 | a new session starts with an empty cart |
| PosViews.PosBackend.AddToCart | pos/views.py:294-344 | the answer and the new session cart are those of `CartAfterAdd`, and an error leaves the cart unchanged |
| PosViews.PosBackend.UpdateCartItem | pos/views.py:348-389 | the answer and the new cart are those of `CartAfterUpdate` |
| PosViews.PosBackend.RemoveFromCart | pos/views.py:393-413 | the new cart is `CartAfterRemove` of the old one |
| PosViews.PosBackend.ClearCart | pos/views.py:417-424 | the cart becomes empty |
| PosViews.PosBackend.CreateTransaction | pos/views.py:428-510 | an empty cart is refused with nothing changed. Otherwise exactly one pending transaction with one item per line is recorded, stock falls by the quantities sold, and the cart empties |
| PosViews.PosBackend.UploadEwalletReceipt | pos/views.py:514-551 | on success exactly one receipt is attached and the transaction becomes completed; any error changes nothing |
| PosViews.PosBackend.UpdateTransactionStatus | pos/views.py:555-580 | on success only that transaction's status changes, to the posted one; any error changes nothing |
| SalesReport.ReportItems | pos/views.py:176-197 | every item reported comes from a completed transaction inside the date range, and every item of such a transaction is reported |
| SalesReport.ReportTotals | pos/views.py:176-197 | a product's quantity and sales over the reported items are the sums of its totals over each covered transaction, so nothing is lost or counted twice |
| SalesReport.ReportedIsSold | pos/views.py:176-197 | a product among the reported items was sold in a covered transaction |
| SalesReport.SoldIsReported | pos/views.py:176-197 | a product sold in a covered transaction is among the reported items |
| SalesReport.GroupIndex | pos/views.py:202 | the first entry for a product, or none |
| SalesReport.NothingSold | pos/views.py:200-209 | a product with no item has quantity 0 and sales 0 |
| SalesReport.GroupedSummary | pos/views.py:200-209 | grouping gives one entry per product, each with that product's total quantity and total sales. Every item's product has an entry, and every entry is for a product some item has |
| SalesReport.GroupsAreSold | pos/views.py:200-209 | every entry of the grouping is for a product some item has |
| SalesReport.AggregateSales | pos/views.py:200-209 | the grouping loop computes `Grouped(items)`, with the same summary facts |
| SalesReport.InsertBySales | pos/views.py:212-215 | insertion is a permutation of the list plus the new entry |
| SalesReport.InsertKeepsSorted | pos/views.py:212-215 | inserting into a list sorted by descending sales keeps it sorted |
| SalesReport.SortBySales | pos/views.py:212-215 | sorting is a permutation |
| SalesReport.SortBySalesSorted | pos/views.py:212-215 | the sorted list is in descending order of sales |
| SalesReport.TopTen | pos/views.py:212-216 | min(10, n) entries, sorted, all from the groups, and none left out sells more than one kept |
| SalesReport.TopTenTotals | pos/views.py:200-216 | every entry of the top ten is for a product sold, with its total quantity and sales over the items |
| SalesReport.LeftOutSellsLess | pos/views.py:212-216 | a sold product missing from the top ten sells no more than any entry in it |
| SalesReport.TopProducts | pos/views.py:176-216 | the top products of completed sales in the range: at most ten, sorted by sales, one per product. Each entry is for a product sold in a covered transaction, with its quantity and sales summed over all covered transactions. No product sold in range but left out sells more than an entry kept |
| SalesReport.InsertKeepsKeysUnique | pos/views.py:212-216 | inserting a new product keeps one entry per product |
| SalesReport.SortKeepsKeysUnique | pos/views.py:212-216 | sorting keeps one entry per product |
| PosPage.IncrementLines | src/pages/POS.tsx:48-52 | every line of the product gets one more, and other lines are unchanged |
| PosPage.AddOrIncrement | src/pages/POS.tsx:45-55 | a product in the cart gets one more on its lines and nothing else changes. A new product is appended with quantity 1. Unique ids and positive quantities are preserved |
| PosPage.TotalAfterIncrement | src/pages/POS.tsx:82-85 | one more of a product raises the total by the prices of its lines |
| PosPage.PricesOfSingleLine | src/pages/POS.tsx:82-85 | with unique ids, the prices of a product's lines are its one price |
| PosPage.NoPrices | src/pages/POS.tsx:82-85 | a product not in the cart contributes nothing to the total |
| PosPage.TotalAfterAdd | src/pages/POS.tsx:42-56 | adding a product raises the total by exactly one unit's price |
| PosPage.ApplyChange | src/pages/POS.tsx:62-69 | a change applies to the product's lines only if the new quantity stays positive |
| PosPage.ChangeQuantity | src/pages/POS.tsx:61-71 | quantities stay positive, and no line is removed when they were positive (a decrement to 0 is ignored). Unique ids are preserved |
| PosPage.DecrementKeepsLastUnit | src/pages/POS.tsx:64-67 | decreasing a line with quantity 1 leaves it as it is |
| PosPage.RemoveLines | src/pages/POS.tsx:77-79 | exactly the product's lines go, the rest keep their order, and positivity and uniqueness are kept |
| PosPage.ItemsFor | src/pages/POS.tsx:157-161 | one item per line, with its name, quantity and price |
| PosPage.TotalMatchesItems | src/pages/POS.tsx:149-161 | the cart total equals the total of the recorded items |
| PosPage.BuildTransaction | src/pages/POS.tsx:149-168 | the transaction is pending exactly for cash and completed otherwise. Its total is its items' total. Card details are present exactly for card and keep the last ≤4 characters and the expiry |
| PosPage.MethodChosen | src/pages/POS.tsx:131 | a method is chosen when it is set and not empty |
| PosPage.PointOfSale.constructor | src/pages/POS.tsx:14-24 | the page starts with an empty cart, no method chosen and empty card details |
| PosPage.PointOfSale.AddToCart | src/pages/POS.tsx:42-56 | the cart becomes `AddOrIncrement` of the old one, and the payment state is reset |
| PosPage.PointOfSale.UpdateQuantity | src/pages/POS.tsx:58-72 | the cart becomes `ChangeQuantity` of the old one, and the payment state is reset |
| PosPage.PointOfSale.RemoveFromCart | src/pages/POS.tsx:74-80 | the cart becomes `RemoveLines` of the old one, and the payment state is reset |
| PosPage.PointOfSale.HandlePaymentMethodSelect | src/pages/POS.tsx:87-98 | the method is remembered, and the card and wallet forms show exactly for their methods |
| PosPage.PointOfSale.HandlePayment | src/pages/POS.tsx:130-181 | no method or an empty cart stores nothing. Otherwise exactly `BuildTransaction` of the cart is appended to the stored list and the payment completes |
| PosPage.PointOfSale.HandleCardSubmit | src/pages/POS.tsx:117-128 | a missing card field gives `MissingCardDetails`. With the card filled in, no method gives `NoPaymentMethod` and an empty cart gives `CartIsEmpty`. Every refusal stores nothing and leaves the forms and completion flag alone. Success appends exactly `BuildTransaction` of the cart, completes the payment and hides both forms |
| PosPage.PointOfSale.ResetTransaction | src/pages/POS.tsx:187-196 | the cart, payment state and card details are cleared |
| ProductCatalog.FirstWithBarcode | src/components/pos/ProductCatalog.tsx:34 | the first product with the barcode, with none before it |
| ProductCatalog.FindByBarcode | src/components/pos/ProductCatalog.tsx:34 | none exactly when no product has the barcode, else the first that has it |
| ProductCatalog.HandleBarcodeSearch | src/components/pos/ProductCatalog.tsx:31-39 | empty input does nothing. A match is added and clears the input. No match keeps the input |
| ProductCatalog.FilteredProducts | src/components/pos/ProductCatalog.tsx:47-54 | exactly the products of the category that match the search, in catalogue order |
| ProductCatalog.EmptySearchShowsWholeCategory | src/components/pos/ProductCatalog.tsx:49-53 | an empty search shows the whole category |
| CardPayment.DigitsOf | src/components/pos/payments/CardPayment.tsx:19 | only digits come out, and no more characters than went in |
| CardPayment.DigitsOfIsFilter | src/components/pos/payments/CardPayment.tsx:19 | removing the non-digits is filtering by digit: exactly the input's digits, in their order |
| CardPayment.DigitsOfKeepsEveryDigit | src/components/pos/payments/CardPayment.tsx:19 | each digit comes out as often as it occurs in the input |
| CardPayment.FirstSixteen | src/components/pos/payments/CardPayment.tsx:22 | the first 16 digits, or all if fewer |
| CardPayment.GroupedShape | src/components/pos/payments/CardPayment.tsx:25 | the grouped number has a dash after every fourth digit and none at the end |
| CardPayment.GroupedDashes | src/components/pos/payments/CardPayment.tsx:25 | dashes sit exactly at every fifth position |
| CardPayment.GroupedDigits | src/components/pos/payments/CardPayment.tsx:25 | grouping keeps the digits |
| CardPayment.FormatCardNumber | src/components/pos/payments/CardPayment.tsx:17-28 | the result holds the first 16 digits of the input, in dash-separated groups of four, at most 19 characters |
| CardPayment.FormatIdempotent | src/components/pos/payments/CardPayment.tsx:17-28 | formatting a formatted number changes nothing |
| CardPayment.OnCardNumberChange | src/components/pos/payments/CardPayment.tsx:30-33 | only the card number changes, to the formatted input |
| CardPayment.DigitsOfAppend | src/components/pos/payments/CardPayment.tsx:19 | removing non-digits distributes over concatenation |
| LoginPage.IsValidLogin | src/pages/Index.tsx:17-24 | valid exactly for username cashier or admin in any case, with password "password" |
| LoginPage.LoginIgnoresUsernameCase | src/pages/Index.tsx:23 | the username's case does not matter |
| LoginPage.PasswordIsCaseSensitive | src/pages/Index.tsx:23 | "PASSWORD" and "Password" never log in |
| LoginPage.HandleLogin | src/pages/Index.tsx:14-39 | it goes to /pos exactly when the credentials are valid |
| MainJs.GetCsrfToken | static/js/main.js:251-260 | the loop returns the token that the cookie-parsing function describes |
| MainJs.NoCsrfPairGivesEmpty | static/js/main.js:259 | with no csrftoken pair the result is the empty string |
| MainJs.FirstCsrfPairWins | static/js/main.js:253-257 | the first pair named csrftoken decides the value |
| MainJs.CsrfValueStopsAtSecondEquals | static/js/main.js:254 | the value is the text between the first and the second '=' |
| CameraUtils.RequestCameraPermission | src/utils/cameraUtils.ts:4-39 | the rear camera is tried first and any camera only if that fails. null is returned only when both fail |
| CameraUtils.GetAvailableCameras | src/utils/cameraUtils.ts:41-52 | exactly the video inputs, in order, and none on error |
| CameraUtils.FirstRearFacing | src/utils/cameraUtils.ts:58-62 | the first camera labelled back, rear or environment, with none before it |
| CameraUtils.SelectBestCamera | src/utils/cameraUtils.ts:54-71 | null for no cameras, else the first rear-facing camera, else the first camera |
| CameraUtils.StopStreamTracks | src/utils/cameraUtils.ts:189-206 | every track's stop is called in order, and a throwing track does not end the loop |
| CameraScannerJs.ProblemOf | static/js/camera-scanner.js:173-179 | each of the three groups is recognised by exactly its two error names |
| CameraScannerJs.PlainErrorShowsNoAlert | static/js/camera-scanner.js:24-25 | the missing-library error shows no alert |
| CameraScannerJs.Run | static/js/camera-scanner.js:105-123 | the detections passed on are drawn from the stream, and the last one is the scanner's state |
| CameraScannerJs.SameCodeSpacedByCooldown | static/js/camera-scanner.js:110-112 | two consecutive deliveries of the same code are at least the cooldown apart |
| CameraScannerJs.RepeatWithinCooldownDropped | static/js/camera-scanner.js:110-112 | the same code within the cooldown changes nothing |
| CameraScannerJs.CameraScanner.constructor | static/js/camera-scanner.js:13-16 | not scanning, no code seen, a 1000 ms cooldown |
| CameraScannerJs.CameraScanner.Start | static/js/camera-scanner.js:19-27 | nothing while scanning. A missing library reports an error and does not start. Otherwise initialisation is requested |
| CameraScannerJs.CameraScanner.OnInitComplete | static/js/camera-scanner.js:77-84 | an error is reported; success starts scanning |
| CameraScannerJs.CameraScanner.Stop | static/js/camera-scanner.js:97-103 | it stops exactly when scanning with the library loaded |
| CameraScannerJs.CameraScanner.OnBarcodeDetected | static/js/camera-scanner.js:105-123 | a detection passes exactly when the cooldown rule accepts it; only then is it remembered and delivered |
| CameraScannerJs.CameraScanner.HandleError | static/js/camera-scanner.js:165-180 | every error is reported, and a known camera problem shows its alert |
| BarcodeScannerJs.PushHistory | static/js/barcode-scanner.js:269-273 | the code goes first and the history grows by one, up to five entries |
| BarcodeScannerJs.HistoryIsNewestFive | static/js/barcode-scanner.js:269-273 | the history is the last five codes accepted (or all, if fewer), newest first |
| BarcodeScannerJs.BarcodeScanner.constructor | static/js/barcode-scanner.js:16-20 | closed, no camera, no current code, empty history |
| BarcodeScannerJs.BarcodeScanner.OpenScanner | static/js/barcode-scanner.js:56-68 | it opens in manual mode with no camera, rendering the controls only if the page has the container; a camera scanner left over is stopped as `stop()` allows (only when running with Quagga loaded) |
| BarcodeScannerJs.BarcodeScanner.CloseScanner | static/js/barcode-scanner.js:70-82 | closed, controls removed, and any camera stopped and dropped |
| BarcodeScannerJs.BarcodeScanner.ShowManualEntry | static/js/barcode-scanner.js:151-177 | any camera is stopped and dropped, and the camera panel is hidden |
| BarcodeScannerJs.BarcodeScanner.ShowCameraScanner | static/js/barcode-scanner.js:179-198 | with the controls rendered, the camera panel shows and a new scanner starts only if none exists |
| BarcodeScannerJs.BarcodeScanner.ToggleScannerMode | static/js/barcode-scanner.js:200-209 | camera mode goes to manual and stops the old scanner as `stop()` allows; otherwise the camera panel shows when the controls exist, with a fresh scanner started (not yet scanning, and with the missing-library error recorded when Quagga is absent) |
| BarcodeScannerJs.BarcodeScanner.InitializeCameraScanner | static/js/barcode-scanner.js:211-219 | a fresh camera scanner is made and started |
| BarcodeScannerJs.BarcodeScanner.HandleManualBarcode | static/js/barcode-scanner.js:221-228 | blank input changes nothing; otherwise the trimmed text is handled as a scan: unless it is the current code it becomes current, goes in front of the history, is delivered and schedules one reset, and a refused entry changes nothing |
| BarcodeScannerJs.BarcodeScanner.HandleBarcodeDetection | static/js/barcode-scanner.js:230-262 | the current code is ignored. Any other becomes current, goes first in the history, is delivered and schedules a reset. The dialog invariant is kept |
| BarcodeScannerJs.BarcodeScanner.ResetTimerFires | static/js/barcode-scanner.js:258-261 | a reset clears the current code, whichever code is current |
| BarcodeScannerJs.BarcodeScanner.OnCameraDetection | static/js/barcode-scanner.js:212-213 | a camera detection reaches the page exactly when both the cooldown and the current-code guard pass it. The camera scanner's last detection and deliveries follow its cooldown alone, and the page's code, history, deliveries and resets are those of a scan |
| UseBarcodeScanner.InitFailedMessage | src/hooks/useBarcodeScanner.ts:214 | the failure message carries the error's message, or "Unknown error" |
| UseBarcodeScanner.WorkerCount | src/hooks/useBarcodeScanner.ts:187 | at least 2 workers, and exactly half the cores when that is more |
| UseBarcodeScanner.SameCodeWindow | src/hooks/useBarcodeScanner.ts:261-266 | after a code is passed on, it is refused for exactly 3000 ms; other codes pass at once |
| UseBarcodeScanner.ScannerHook.constructor | src/hooks/useBarcodeScanner.ts:40-47 | the initial state cells |
| UseBarcodeScanner.ScannerHook.InitScanner | src/hooks/useBarcodeScanner.ts:84-127 | no stream gives the permission message and keeps the cameras. Otherwise the stream is kept and the video inputs listed. The best camera is chosen with the message cleared, or the no-camera message is shown (`CameraOutcome`). Loading ends |
| UseBarcodeScanner.ScannerHook.StopScanner | src/hooks/useBarcodeScanner.ts:129-149 | the scanner is uninitialised, and any stream is stopped and dropped |
| UseBarcodeScanner.ScannerHook.SetupQuagga | src/hooks/useBarcodeScanner.ts:151-160 | it needs the element and a camera; it then stops the scanner and requests initialisation |
| UseBarcodeScanner.ScannerHook.OnQuaggaInit | src/hooks/useBarcodeScanner.ts:211-226 | a failure shows its message; success initialises and clears the message |
| UseBarcodeScanner.ScannerHook.OnDetected | src/hooks/useBarcodeScanner.ts:259-289 | an empty code, or the same code within 3000 ms, is ignored. Otherwise it is remembered with its time and delivered, the scanner stops with its stream's tracks stopped, and a restart is scheduled; an ignored code stops nothing |
| UseBarcodeScanner.ScannerHook.RestartTimerFires | src/hooks/useBarcodeScanner.ts:284-288 | the scanner is set up again, stopping the old stream, only if still open with the element and a camera; otherwise no cell but the pending count changes |
| UseBarcodeScanner.ScannerHook.ChangeCamera | src/hooks/useBarcodeScanner.ts:294-299 | the same camera changes nothing; another stops the scanner and its stream's tracks and becomes active |
| UseBarcodeScanner.ScannerHook.RetryScanner | src/hooks/useBarcodeScanner.ts:301-305 | the old stream is stopped, the scanner is uninitialised, and the camera cells, message and stream are those of a fresh camera request (`CameraOutcome`) |
| UseBarcodeScanner.ScannerHook.OpenChanged | src/hooks/useBarcodeScanner.ts:51-66 | either way the old stream is stopped and the scanner uninitialised. Opening clears the last code and gives the cells a fresh camera request leaves (`CameraOutcome`). Closing leaves the cameras, active camera, message, loading flag and last code as they were |
| UseBarcodeScanner.ScannerHook.CameraEffect | src/hooks/useBarcodeScanner.ts:69-74 | set-up happens exactly when open, with a camera and the element, and not yet initialised. Otherwise the scanner, stream, message and stopped streams are unchanged |
| BarcodeScannerDialog.FindCamera | src/components/pos/BarcodeScanner.tsx:138 | the first camera with the active id, or -1 when none has it |
| BarcodeScannerDialog.NextCameraIndex | src/components/pos/BarcodeScanner.tsx:138-140 | the next camera, wrapping from the last to the first; an unknown camera gives the first. The index is always valid |
| BarcodeScannerDialog.AfterSwitches | src/components/pos/BarcodeScanner.tsx:132-141 | repeated switches stay on valid positions |
| BarcodeScannerDialog.SwitchesGoRoundRobin | src/components/pos/BarcodeScanner.tsx:138-140 | with distinct ids, n switches from position k reach (k + n) mod the number of cameras |
| BarcodeScannerDialog.FullRoundReturns | src/components/pos/BarcodeScanner.tsx:138-140 | one switch per camera comes back to the start |
| BarcodeScannerDialog.DefaultCamera | src/components/pos/BarcodeScanner.tsx:67-69 | the first video device becomes active only when no camera is active |
| BarcodeScannerDialog.ScannerDialog.constructor | src/components/pos/BarcodeScanner.tsx:19-27 | the initial state cells, with scanning on |
| BarcodeScannerDialog.ScannerDialog.ProcessBarcode | src/components/pos/BarcodeScanner.tsx:30-54 | the last code is ignored. Any other is remembered and delivered, and a single reset is pending |
| BarcodeScannerDialog.ScannerDialog.DebounceFires | src/components/pos/BarcodeScanner.tsx:51-53 | the last code is forgotten |
| BarcodeScannerDialog.ScannerDialog.OnDetected | src/components/pos/BarcodeScanner.tsx:103-107 | a detection is processed only with a non-empty code while scanning; a code passed on starts the debounce timer, and one refused leaves the timer as it was |
| BarcodeScannerDialog.ScannerDialog.InitializeScanner | src/components/pos/BarcodeScanner.tsx:59-115 | it lists the video inputs and defaults the camera. Quagga starts only if the element exists and a camera was already active. Failures show the camera message |
| BarcodeScannerDialog.ScannerDialog.RunEffect | src/components/pos/BarcodeScanner.tsx:117-119 | when open and not initialised, every outcome of `InitializeScanner` (listing failed, no element or camera when run, start threw, started); otherwise nothing changes |
| BarcodeScannerDialog.ScannerDialog.EffectCleanup | src/components/pos/BarcodeScanner.tsx:121-129 | a scanner the effect started is stopped, and the pending reset is cancelled, so the last code stays remembered |
| BarcodeScannerDialog.ScannerDialog.SwitchCamera | src/components/pos/BarcodeScanner.tsx:132-141 | the scanner stops and the next camera in the list becomes active |
| BarcodeScannerDialog.ScannerDialog.ToggleScanner | src/components/pos/BarcodeScanner.tsx:143-186 | a running scanner stops; otherwise one more 300 ms restart is scheduled beside those still pending, since none is ever cleared |
| BarcodeScannerDialog.ScannerDialog.RestartFires | src/components/pos/BarcodeScanner.tsx:149-184 | one pending restart fires: with the element, a failure shows the camera message and success initialises, and without it nothing changes |
| BarcodeScannerDialog.DoubleStartRunsInitTwice | src/components/pos/BarcodeScanner.tsx:143-186 | two Start clicks before the first restart fires run `Quagga.init` twice: a success then a failure leaves the dialog initialised and showing the camera message |
| BarcodeScannerDialog.ScannerDialog.ToggleScanning | src/components/pos/BarcodeScanner.tsx:268 | pause and resume flip the scanning flag |

## Left out

- Quagga itself is outside the model. That covers its configuration, frame decoding, `onProcessed` drawing, `Quagga.start`/`stop` and the raw-video fallback. Its outcomes (init error or success, detected codes) are parameters and event methods.
- Browser media calls are outside the model: `getUserMedia`, `enumerateDevices`, `attachStreamToVideo` and `resetVideoElement`. Their results are parameters.
- UI side effects are outside the model: HTML, toasts, alerts, sounds, vibration, focus, navigation and console output. Messages that decide behaviour are kept as constants.
- The `fetch` wrappers of static/js/main.js are network I/O and are not modelled. The logic they call is in pos/views.py.
- Django plumbing is outside the model: ORM queries, sessions, templates, decorators and JSON parsing. So are the 405 method checks, the catch-all exception answers and the read-only page views. Tables are maps, the session cart is a field, and errors are `ApiError` values mapped to HTTP codes by `HttpStatus`.
- `product_id` comparisons are on integers. The source compares the posted value with stored ids, which may differ in type.
- Money is integer centavos. Decimal and float conversion, rounding and `toFixed` are not modelled.
- Transaction ids (UUIDs, `Math.random`), timestamps and the clock are parameters. `PosViews.PosBackend.CreateTransaction` refuses an id already in use (`IdTaken`), which a UUID makes practically impossible.
- `localStorage`, `FileReader` and the wallet upload path `handleFileUpload` are outside the model. Stored transactions are a `seq` field.
- `sales_report`'s date parsing and defaults, its totals and its per-method breakdown are outside the model. The range is given as two integers.
- SalesReport.SortBySales: ties in sales may be ordered differently from Python's stable `sorted`. The contract states order, permutation and uniqueness, not stability.
- JavaScript `toLowerCase` is modelled for ASCII letters only. There is no Unicode case mapping.
- React scheduling is not modelled: effect ordering, batched state updates and stale closures. In particular, handlers in the source read state captured when they were registered; the model's handlers read current state. Handlers that Quagga accumulates across set-ups are not modelled either.
- Asynchrony and races, such as a permission answer arriving after the dialog closed, are not modelled. Each asynchronous step is an explicit method call.
- BarcodeScannerDialog.NextCameraIndex writes `(i + 1) % n` as an explicit wrap. This is the same for `-1 <= i < n`, the only values `findIndex` returns.
- UseBarcodeScanner.ScannerHook.StopScanner records a stopped stream instead of calling `stopStreamTracks`, whose effect is modelled by `CameraUtils.StopStreamTracks`.
- BarcodeScannerJs.BarcodeScanner.OpenScanner: a page without the container is a constant (`hasContainer`). The dialog's DOM is reduced to whether its controls are rendered and which panel is shown.

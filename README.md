# A model of the ReapSow, VibeLink and TravelQuest cores

This project is a Dafny model of the rule-bearing parts of a small multi-app
web site, with proofs of what those parts promise:

- **ReapSow-Lite API**
  - `POST /api/simulate` runs three validation stages in order and reports the first one that fails: missing field, invalid amount, then cost not below order. A request that passes all three gets profit, margin and hold days (module `MarginServer`).
  - `POST /api/optimize-listing` title-cases a listing title word by word and fills in defaults (module `ListingOptimizer`).
- **ReapSow page.** `handleSimulate` is the client-side copy of the margin rule. The last simulation stays on screen when a new one is rejected (module `MarginClient`, class `ReapSowPage`).
- **VibeLink API.** `POST /api/leads` checks four required fields and appends a fixed-column record to the leads file. It forwards the record to an optional webhook on a best-effort basis and returns the record with `details` redacted (module `LeadCapture`, class `LeadServer`).
- **VibeLink pages**
  - The kit checkout: the kit id taken from the query string, the kit table and its fallback, the order summary, and the simulated payment submit (module `KitCheckout`, class `CheckoutPage`).
  - The landing page: the DIY kit cards, their checkout links built with `qrLink.split('/').pop()`, and the quote form (module `VibeLinkPage`, class `QuotePage`).
- **TravelQuest page.** The deal table and the affiliate "Book Now" link (module `TravelQuest`).
- **Before/after slider.**
  - A two-field state machine: the position and the dragging flag.
  - A clamp keeps the position in [0, 100].
  - The image clip follows the divider (module `BeforeAfterSlider`, class `Slider`).

Shared modules:

- `JsValues` models the JavaScript semantics the handlers rely on:
  - the primitive values of a JSON body;
  - truthiness and `||`;
  - `parseFloat` as a scanner over the string, with `None` for NaN;
  - `Math.round` and `Math.ceil` over exact reals.
- `Strings` models `split`/`join` on a one-character separator and ASCII case mapping.
- `Wrappers` holds `Option` and `Result`.
- `Toasts` holds the toast notification the pages raise.

Amounts are exact reals, not IEEE doubles.

Handlers that only compute their HTTP response become functions from the request to a `Result`. The lead handler also appends to the leads file, so it is the method `LeadServer.SubmitLead`, which returns a `Result`. The error constructors carry the status code and the message. The request time (`new Date().toISOString()`) is a `now` parameter.

React components whose state changes become classes whose fields hold that state. Usually there is one field per `useState`; there are two exceptions. `ReapSowPage` keeps the three fields of its `formData` object as three fields. `CheckoutPage` also holds the kit it selected, as a constant, and the form as the pending submit saw it (`submitted`). An `async` submit handler with an `await` in it becomes two methods (`handleSimulate` has none, so it is the single method `HandleSimulate`):

- `StartSubmit` runs up to the `await`.
- `FinishSubmit(succeeded)` runs after it. `succeeded` says whether the awaited step completed.

Numeric zero is handled as the code handles it. A numeric `0` for `orderAmount` or `supplierCost` is falsy. The code therefore reports it as a missing field (`ReapSow-Lite/router/server.js:23`), not as an invalid amount, although 0 is not a positive number. The model follows the code (`MarginServer.NumericZeroIsMissing`). The string `"0"` is truthy and does reach the invalid-amount stage (`MarginServer.StringZeroIsInvalid`).

## Model

| member | source | states |
|---|---|---|
| JsValues.OrElse | VibeLink/server/server.js:53 | `v \|\| fallback` is `v` when `v` is truthy and the fallback otherwise |
| JsValues.Truthy | ReapSow-Lite/router/server.js:23 | a primitive is falsy exactly when it is one of the five falsy values `undefined`, `null`, `false`, `0` and `""` |
| JsValues.ParseFloat | ReapSow-Lite/router/server.js:29-30 | `parseFloat` yields a number exactly when, after the white space and an optional sign, the text starts with a digit or with a point followed by a digit; a number implies the text holds a digit |
| JsValues.NumberAtSome | ReapSow-Lite/router/server.js:29-30 | the scan from a position reads a number exactly when a mantissa starts after the optional sign |
| JsValues.ParseFloatDecimal | ReapSow-Lite/router/server.js:29-30 | `parseFloat` of a decimal text `w.ds` is its value: `w` plus the digits `ds` divided by 10 to the power of their count |
| JsValues.ParseFloatSigned | ReapSow-Lite/router/server.js:29-30 | a leading `-` negates what follows it (NaN stays NaN) and a leading `+` changes nothing |
| JsValues.ParseFloatSkipsWhite | ReapSow-Lite/router/server.js:29-30 | any run of leading white space (every ECMAScript white-space and line-terminator character, Unicode space separators included) leaves the result unchanged |
| JsValues.ParseValue | ReapSow-Lite/router/server.js:29-30 | a number parses to itself, a string as `parseFloat` of its text, and `undefined`, `null` and the booleans to NaN |
| JsValues.ParseFloatNatToString | ReapSow-Lite/router/server.js:29-30 | `parseFloat` reads the decimal text of every natural number back as that number |
| JsValues.ParseFloatNoDigits | ReapSow-Lite/router/server.js:29-32 | a string without any decimal digit parses to NaN |
| JsValues.MathRound | ReapSow-Lite/router/server.js:52-53 | `Math.round` gives an integer within half a unit of its argument, halves going up |
| JsValues.MathCeil | ReapSow-Lite/router/server.js:47 | `Math.ceil` gives the least integer not below its argument |
| JsValues.RoundCents | ReapSow-Lite/router/server.js:52-53 | the result is a whole number of cents, and it lies in (x − ½ cent, x + ½ cent], which makes it the nearest cent value, halves going up |
| JsValues.RoundCentsMonotone | ReapSow-Lite/router/server.js:52-53 | rounding to cents preserves order |
| JsValues.RoundCentsOfCents | ReapSow-Lite/router/server.js:52-53 | a whole number of cents is unchanged by rounding |
| Strings.Split | ReapSow-Lite/router/server.js:85 | `split(sep)` gives one more piece than there are separators, and no piece contains the separator |
| Strings.Join | ReapSow-Lite/router/server.js:87 | the empty list joins to `""` and a join starts with its first piece; `JoinSplit` and `SplitJoin` make it the inverse of `Split` |
| Strings.JoinSplit | ReapSow-Lite/router/server.js:85-87 | joining the pieces of a split with the same separator gives back the string |
| Strings.SplitJoin | ReapSow-Lite/router/server.js:85-87 | splitting a join of separator-free pieces gives back the pieces |
| Strings.SplitLastSegment | src/pages/VibeLink.tsx:228 | the last piece of `p + '/' + w` is `w`, when `w` has no `/` |
| MarginServer.Simulate | ReapSow-Lite/router/server.js:18-27 | the missing-field error occurs exactly when an amount is falsy; otherwise the parsed amounts decide the answer |
| MarginServer.SimulateParsed | ReapSow-Lite/router/server.js:29-56 | invalid amounts exactly when a parse is NaN or not positive, and the relation error exactly when both are positive and cost ≥ order. A result echoes the parsed amounts, has 0 < cost < order, a profit within half a cent of order − cost, a margin in [0, 100] within half a cent of the exact margin, both in whole cents, hold days ≥ 1 with (holdDays − 1)·100 < cost ≤ holdDays·100, and the given timestamp |
| MarginServer.SimulateValidation | ReapSow-Lite/router/server.js:23-42 | the three stages in order, each as an if-and-only-if on the request; a result comes exactly when all three pass |
| MarginServer.RawMarginBounds | ReapSow-Lite/router/server.js:45-46 | with 0 < cost < order the unrounded margin is strictly between 0 and 100 |
| MarginServer.RoundCentsWithin | ReapSow-Lite/router/server.js:52-53 | cent rounding keeps a value between two whole-cent bounds |
| MarginServer.SimulateFormulas | ReapSow-Lite/router/server.js:45-56 | an accepted pair gets profit and margin rounded to cents and `Math.ceil(cost / 100)` hold days |
| MarginServer.SimulateDeterministic | ReapSow-Lite/router/server.js:49-56 | the answer depends only on the two amounts; the e-mail and the time change nothing but the timestamp |
| MarginServer.NumericZeroIsMissing | ReapSow-Lite/router/server.js:23-27 | a numeric 0 in either amount gives the missing-field error |
| MarginServer.StringZeroIsInvalid | ReapSow-Lite/router/server.js:29-36 | the string `"0"` with a truthy other amount gives the invalid-amount error |
| MarginServer.EqualAmountsRejected | ReapSow-Lite/router/server.js:38-42 | equal positive amounts give the relation error and no result |
| MarginServer.ExampleHundredFifty | ReapSow-Lite/router/server.js:45-56 | order 100 and cost 50 give profit 50, margin 50 and one hold day |
| MarginServer.ExampleFormPlaceholders | ReapSow-Lite/router/server.js:29-56 | the form placeholders `"299.99"` and `"199.99"` give profit 100.00, margin 33.33 and two hold days |
| MarginServer.PlaceholderMetrics | ReapSow-Lite/router/server.js:45-53 | the arithmetic of that example: 100.00, 33.33 and 2 |
| MarginServer.ExampleIdeographicSpace | ReapSow-Lite/router/server.js:29-56 | an order amount `"\u300010"` (after an ideographic space) with cost 5 gives profit 5.00, margin 50.00 and one hold day |
| MarginServer.ParseIdeographicTen | ReapSow-Lite/router/server.js:29 | `parseFloat("\u300010")` is 10 |
| MarginServer.TenFiveMetrics | ReapSow-Lite/router/server.js:45-53 | the arithmetic of that example: 5.00, 50.00 and 1 |
| MarginServer.ParseOrderPlaceholder | src/pages/ReapSow.tsx:131 | `parseFloat("299.99")` is 299.99 |
| MarginServer.ParseCostPlaceholder | src/pages/ReapSow.tsx:144 | `parseFloat("199.99")` is 199.99 |
| ListingOptimizer.CapitalizeWord | ReapSow-Lite/router/server.js:86 | a capitalized word has the same length and the same letters up to case; its first letter is upper-case and the rest lower-case |
| ListingOptimizer.CapitalizeCapitalized | ReapSow-Lite/router/server.js:86 | capitalizing an already capitalized word leaves it unchanged |
| ListingOptimizer.CapitalizeKeepsSpaces | ReapSow-Lite/router/server.js:86 | capitalizing keeps spaces where they are and adds none |
| ListingOptimizer.CapitalizeAll | ReapSow-Lite/router/server.js:84-86 | `map` capitalizes each word and keeps the word count |
| ListingOptimizer.CapitalizedWordsNoSpace | ReapSow-Lite/router/server.js:84-86 | capitalized words of a split still have no space |
| ListingOptimizer.TitleCase | ReapSow-Lite/router/server.js:84-87 | the title-cased text has the title's length, and its words are the title's words, each capitalized |
| ListingOptimizer.TitleCaseWords | ReapSow-Lite/router/server.js:84-87 | the words of the title-cased text are the title's words capitalized: the same number of words, each the same length and the same up to case |
| ListingOptimizer.TitleCaseShape | ReapSow-Lite/router/server.js:84-87 | title-casing keeps the length and puts spaces exactly where the title has them |
| ListingOptimizer.TitleCaseIdempotent | ReapSow-Lite/router/server.js:84-87 | title-casing twice is title-casing once |
| ListingOptimizer.OptimizeListing | ReapSow-Lite/router/server.js:77-106 | 400 exactly when the title is falsy, and 500 exactly when it is truthy but not a string. Otherwise: the title-cased title, the original request echoed, a falsy description or price replaced by its fixed default, and the fixed suggestions and note |
| ListingOptimizer.OptimizeTwice | ReapSow-Lite/router/server.js:84-100 | sending back an optimized title returns it unchanged |
| MarginClient.ClientSimulate | src/pages/ReapSow.tsx:26-29 | the invalid-input rejection occurs exactly when a field parses to NaN or to a number ≤ 0 |
| MarginClient.ClientDecide | src/pages/ReapSow.tsx:29-56 | invalid input and the relation error as exact conditions on the parsed amounts; a simulation has margin in [0, 100] and profit ≥ 0, both in whole cents, and hold days ≥ 1 |
| MarginClient.ToastFor | src/pages/ReapSow.tsx:29-61 | the toast is destructive exactly on a rejection |
| MarginClient.DecisionsAgree | src/pages/ReapSow.tsx:29-55 | on the same parsed amounts the client and the server accept together with the same margin, profit and hold days. They report the relation error together, and the client's invalid input is the server's invalid amounts |
| MarginClient.ClientAgreesWithServer | src/pages/ReapSow.tsx:26-55 | on the same form texts the client and the server accept together with identical figures. They agree on the relation error, and every other server rejection, missing field included, is the client's invalid input |
| MarginClient.EmptyFieldIsInvalidInput | src/pages/ReapSow.tsx:26-35 | an empty field is the client's invalid input but the server's missing field |
| MarginClient.EmptyTextIsNaN | src/pages/ReapSow.tsx:26-27 | `parseFloat("")` is NaN |
| MarginClient.ExampleFormPlaceholders | src/pages/ReapSow.tsx:48-55 | the two placeholders give margin 33.33, profit 100.00 and two hold days |
| MarginClient.ReapSowPage.constructor | src/pages/ReapSow.tsx:12-21 | empty fields and no simulation |
| MarginClient.ReapSowPage.EditField | src/pages/ReapSow.tsx:129 | an input replaces its own field and keeps the others |
| MarginClient.ReapSowPage.HandleSimulate | src/pages/ReapSow.tsx:23-62 | the outcome's toast; a success replaces the simulation, a rejection keeps the previous one |
| LeadCapture.CsvRow | VibeLink/server/server.js:17-26 | a record's line has one value per header column, in header order |
| LeadCapture.ColumnIdsDistinct | VibeLink/server/server.js:19-26 | the column ids differ pairwise |
| LeadCapture.HasRequiredFields | VibeLink/server/server.js:41 | the request passes exactly when none of name, phone, zip and project is a falsy value; details is not required |
| LeadCapture.BuildLead | VibeLink/server/server.js:47-54 | the record copies name, phone, zip and project, carries the request time, and has `details` or `''` when details is falsy |
| LeadCapture.Redacted | VibeLink/server/server.js:80 | the response lead equals the record except for `details`, which is `"(provided)"` exactly when the request's details is truthy and `"(none)"` otherwise |
| LeadCapture.RedactionHidesDetails | VibeLink/server/server.js:80 | requests differing only in (equally truthy) details get the same response lead |
| LeadCapture.RedactionMatchesStored | VibeLink/server/server.js:53-80 | the response says `"(provided)"` exactly when the stored details is not empty |
| LeadCapture.WebhookConfigured | VibeLink/server/server.js:61-62 | the webhook branch is taken exactly when `WEBHOOK_URL`, read as a JavaScript value, is truthy: set and not empty |
| LeadCapture.LeadServer.constructor | VibeLink/server/server.js:27 | the writer starts from the records already in the file |
| LeadCapture.LeadServer.SubmitLead | VibeLink/server/server.js:36-90 | a missing field gives 400 and a failed write gives 500, both with nothing stored or sent. Otherwise exactly one record is appended. The webhook is attempted exactly when a URL is set, and its failure does not change the response, which is the redacted record |
| KitCheckout.KitId | src/pages/KitCheckout.tsx:15 | an absent or empty `kit` parameter selects `"curb-appeal"`; any other value is used as given |
| KitCheckout.SelectKit | src/pages/KitCheckout.tsx:38 | the kit is the id's own table entry, or the curb-appeal kit for an id the table lacks; either way a kit of the table |
| KitCheckout.SelectKitTotal | src/pages/KitCheckout.tsx:15-38 | every query parameter leads to a kit of the table, and no parameter to the default |
| KitCheckout.PriceText | src/pages/KitCheckout.tsx:17-36 | a kit's price text is `$` followed by its numeric price |
| KitCheckout.PriceTextMatchesAmount | src/pages/KitCheckout.tsx:17-36 | every price text is `$` and the decimal digits of `priceNum`, and parsing the digits gives `priceNum` |
| KitCheckout.OrderSummary | src/pages/KitCheckout.tsx:127-138 | subtotal and total are the kit price and tax is `$0.00` |
| KitCheckout.PayButtonLabel | src/pages/KitCheckout.tsx:241-243 | the label reads "Processing..." exactly while processing, and otherwise is "Pay " followed by the kit's price |
| KitCheckout.SelectKitAsWritten | src/pages/KitCheckout.tsx:38 | the lookup as written agrees with the corrected one on every id that is not an `Object.prototype` member name |
| KitCheckout.PrototypeKeyEscapesFallback | src/pages/KitCheckout.tsx:38 | `?kit=constructor` selects something that is not a kit |
| KitCheckout.CheckoutPage.constructor | src/pages/KitCheckout.tsx:13-47 | the page's kit is the kit of the corrected lookup `SelectKit`; empty form, not processing |
| KitCheckout.CheckoutPage.EditForm | src/pages/KitCheckout.tsx:164 | an input replaces the form |
| KitCheckout.CheckoutPage.StartSubmit | src/pages/KitCheckout.tsx:49-51 | processing starts; the submit sees the current form |
| KitCheckout.CheckoutPage.FinishSubmit | src/pages/KitCheckout.tsx:53-79 | on success a toast names the kit and the submitted e-mail and the form is cleared; on failure a destructive toast and the form kept; processing ends either way |
| VibeLinkPage.CheckoutSlug | src/pages/VibeLink.tsx:228 | the slug has no `/` |
| VibeLinkPage.CheckoutSlugIsLastSegment | src/pages/VibeLink.tsx:228 | the slug is the text after the link's last `/`, or the whole link exactly when it has no `/` |
| VibeLinkPage.SlugAfterHost | src/pages/VibeLink.tsx:228 | the slug of `host/w` is `w` |
| VibeLinkPage.CheckoutLink | src/pages/VibeLink.tsx:228 | the "Purchase Kit" link is the checkout route followed by the card's slug as the `kit` value, a value without `/` |
| VibeLinkPage.CurbAppealSlug | src/pages/VibeLink.tsx:59 | the first card's slug is `curb-appeal` |
| VibeLinkPage.InteriorRefreshSlug | src/pages/VibeLink.tsx:65 | the second card's slug is `interior-refresh` |
| VibeLinkPage.FullMakeoverSlug | src/pages/VibeLink.tsx:71 | the third card's slug is `full-makeover` |
| VibeLinkPage.CurbAppealEntry | src/pages/VibeLink.tsx:55-60 | the checkout entry `curb-appeal` has the first card's title and price and extends its features, and both the lookup as written and the corrected one select it |
| VibeLinkPage.InteriorRefreshEntry | src/pages/VibeLink.tsx:61-66 | likewise for `interior-refresh` and the second card |
| VibeLinkPage.FullMakeoverEntry | src/pages/VibeLink.tsx:67-72 | likewise for `full-makeover` and the third card |
| VibeLinkPage.CurbAppealReachesCheckout | src/pages/VibeLink.tsx:228 | the first card's link opens the checkout on its own kit |
| VibeLinkPage.InteriorRefreshReachesCheckout | src/pages/VibeLink.tsx:228 | the second card's link opens the checkout on its own kit |
| VibeLinkPage.FullMakeoverReachesCheckout | src/pages/VibeLink.tsx:228 | the third card's link opens the checkout on its own kit |
| VibeLinkPage.DiyKitsReachCheckout | src/pages/VibeLink.tsx:54-73 | every card's slug is a key of the checkout table, and the checkout selects that entry (by the lookup as written and by the corrected one), whose title and price match the card and whose features extend the card's |
| VibeLinkPage.CheckoutLinksReachCheckout | src/pages/VibeLink.tsx:54-73 | the `kit` value of every card's link opens the checkout on that card's own kit, by the lookup as written and by the corrected one |
| VibeLinkPage.QuotePage.constructor | src/pages/VibeLink.tsx:13-20 | empty form, not submitting |
| VibeLinkPage.QuotePage.EditForm | src/pages/VibeLink.tsx:115 | an input replaces the form |
| VibeLinkPage.QuotePage.StartSubmit | src/pages/VibeLink.tsx:22-24 | submitting starts; the form is unchanged |
| VibeLinkPage.QuotePage.FinishSubmit | src/pages/VibeLink.tsx:26-51 | on success the success toast and all five fields cleared; on failure the destructive toast and the form kept; submitting ends |
| TravelQuest.AffBase | src/pages/TravelQuest.tsx:22 | an absent `aff` parameter gives `""`; a present one is used as given |
| TravelQuest.BuildAffLink | src/pages/TravelQuest.tsx:93-96 | `#` without a base; otherwise the link starts with the base, ends with the deal id and is exactly as long as both |
| TravelQuest.DealIdsOfTable | src/pages/TravelQuest.tsx:24-91 | the ids read off the table are, in page order, miami-heat, tampa-bay-bucs, orlando-magic, caribbean-cruise, key-west and nashville-nights |
| TravelQuest.DealIdsDistinct | src/pages/TravelQuest.tsx:24-91 | the six deal ids, the cards' render keys, differ pairwise |
| TravelQuest.PlaceholderIffNoAffiliate | src/pages/TravelQuest.tsx:22-96 | every deal links to `#` exactly when the `aff` parameter is absent or empty |
| TravelQuest.LinksInjective | src/pages/TravelQuest.tsx:93-96 | with a non-empty base two links are equal exactly when their deal ids are |
| TravelQuest.DealLinksDistinct | src/pages/TravelQuest.tsx:93-96 | with a non-empty base the six links differ pairwise |
| BeforeAfterSlider.Max | src/components/BeforeAfterSlider.tsx:21-22 | `Math.max` is the larger argument |
| BeforeAfterSlider.Min | src/components/BeforeAfterSlider.tsx:21-22 | `Math.min` is the smaller argument |
| BeforeAfterSlider.MovePercent | src/components/BeforeAfterSlider.tsx:20-24 | the position is in [0, 100]: 0 at or left of the rectangle, 100 at or right of it, and in between the pointer's offset as a percentage of the width |
| BeforeAfterSlider.ProportionBounds | src/components/BeforeAfterSlider.tsx:22 | a clamped offset as a percentage of the width is in [0, 100] |
| BeforeAfterSlider.MovePercentMonotone | src/components/BeforeAfterSlider.tsx:20-24 | moving the pointer right never moves the divider left |
| BeforeAfterSlider.Slider.constructor | src/components/BeforeAfterSlider.tsx:17-18 | position 50, not dragging, a valid position |
| BeforeAfterSlider.Slider.MouseDown | src/components/BeforeAfterSlider.tsx:26 | dragging starts; the position stays |
| BeforeAfterSlider.Slider.MouseUp | src/components/BeforeAfterSlider.tsx:27 | dragging ends; the position stays |
| BeforeAfterSlider.Slider.MouseLeave | src/components/BeforeAfterSlider.tsx:47 | leaving ends dragging; the position stays |
| BeforeAfterSlider.Slider.MouseMove | src/components/BeforeAfterSlider.tsx:29-33 | while dragging the divider goes to the pointer's position, otherwise nothing changes; a valid position stays valid |
| BeforeAfterSlider.Slider.TouchMove | src/components/BeforeAfterSlider.tsx:35-38 | a touch moves the divider whether or not dragging, and the position is valid |
| BeforeAfterSlider.Slider.ClipRightInset | src/components/BeforeAfterSlider.tsx:65 | the clip's right inset is in [0, 100] |
| BeforeAfterSlider.Slider.DividerLeft | src/components/BeforeAfterSlider.tsx:80 | the divider's left offset is in [0, 100] |
| BeforeAfterSlider.Slider.ClipMeetsDivider | src/components/BeforeAfterSlider.tsx:65-80 | the visible part of the "before" image ends at the divider: inset and offset add to 100 |

## Left out

- Floating point: amounts, percentages and pixel coordinates are exact reals. Rounding error, infinities and NaN arithmetic are not modelled. NaN appears only as the `None` of a failed `parseFloat`.
- `JsValues.ParseFloat`: it does not model `"Infinity"` (the model reads it as NaN) or exponents that overflow to infinity. Its value is proved for decimal texts of the form `w.ds`, for natural numbers and under a sign. No lemma states the value of a text with an exponent part, although the scanner reads one.
- `JsValues.ParseValue`: a number in the request body is taken as its own value. The model does not go through JavaScript's number-to-string conversion.
- Request bodies holding objects or arrays are not modelled: only primitives are. With primitives, the `catch` blocks of `/api/simulate` cannot be reached. The one of `/api/optimize-listing` is reached only for a truthy non-string title, which the model covers.
- `ListingOptimizer.CapitalizeWord`: only ASCII letters change case. Full Unicode case mapping, where one character can become two, is not modelled.
- Logging (`console.log`/`console.error`), the server start-up, the health endpoints, CORS, the Stripe test-mode stub (a fixed answer that depends only on an environment variable) and the CSV header line are all I/O with no result the handlers depend on. The same goes for quoting of CSV fields and the existence check of the leads file, which becomes the `existing` records of `LeadServer.constructor`.
- The request time, the outcome of the CSV write and the outcome of the webhook call are parameters of `LeadServer.SubmitLead` (`now`, `writeSucceeds`, `webhookSucceeds`). `webhookAttempts` and `webhookDeliveries` record what was sent. The HTTP status the webhook answers with is not modelled.
- The `await` delays of the two React submit handlers, and timers in general, are not modelled. Whether the awaited step completed is the `succeeded` parameter. In the source that step never fails, so the failure branch is not reachable there.
- `KitCheckout.CheckoutPage.constructor`: the page is built with the corrected lookup `SelectKit`, so it always holds a kit of the table. The page as written uses `kits[kitId] || kits["curb-appeal"]`, which for an `Object.prototype` name such as `constructor` holds a non-kit, and the page then fails to render; that behaviour is `SelectKitAsWritten` (see "## Findings"), and the page class does not model the failing render.
- `LeadCapture.LeadServer.SubmitLead`: requests are handled one at a time. The handler awaits the CSV write and the webhook call, so two requests can interleave there; that interleaving is not modelled.
- `email` of the simulation request is destructured but never used; it is a field of the request and nothing else.
- `BeforeAfterSlider.MovePercent` and the two move handlers require a positive width. A zero-width rectangle makes the source compute 0/0 = NaN, which is not modelled.
- `BeforeAfterSlider.Slider.TouchMove` takes the first touch point's x coordinate. A touch event always carries at least one touch.
- Rendering is not modelled: layout, icons, images, badges, descriptions and the affiliate banner.
- The Square payment server and browser script, the chat widget, the sidebar and the dashboard layout are not part of this model. The other pages are left out too: the index, the consultation booking and the second travel page.

## Findings

| source | as written | input that shows it | evidently intended | confidence | as-written member | corrected member |
|---|---|---|---|---|---|---|
| src/pages/KitCheckout.tsx:38 | `kits[kitId] \|\| kits["curb-appeal"]` reads inherited `Object.prototype` members, which are truthy, so the fallback does not apply to them | `/vibelink/checkout?kit=constructor` selects the `Object` function; the page then reads `kit.features.map` of `undefined` and fails to render | an id that is not one of the table's own keys falls back to the curb-appeal kit | not executed | KitCheckout.PrototypeKeyEscapesFallback | KitCheckout.SelectKitTotal |

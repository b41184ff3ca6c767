# receiptscan-web: a Dafny model of the client-side rules

receiptscan-web is the browser front end of a receipt-scanning service. Users upload
photos of receipts, the backend extracts merchant, date, totals and line items, and the
front end lists, edits, exports and charts the results. Access is metered by a
subscription plan (free, basic or pro).

This project models the rules the front end applies itself:

- the upload list (`UploadStore`), whose actions replace its `receipts` array;
- upload validation and its constants (`UploadConfig`, `ImageValidation`);
- editing a receipt's line items (`ItemEditor`);
- converting the backend's records, building the list query and request bodies, and
  renaming the statistics (`ReceiptHistory`);
- the analytics dashboard's data: period choice, the zero-filled daily series, month
  parsing and the overspending alert (`Analytics`);
- the plan table, usage limits, subscription normalisation and the plan-tier lookup
  (`Plans`, `UsageLimit`, `Subscription`);
- price and limit texts (`PriceFormat`), primary sign-in provider and error texts (`Auth`);
- the CSV and PDF exporters (`Export`) and the top-three categories panel
  (`ReceiptStatistics`).

`Text` holds decimal numerals and JavaScript's `parseInt`/`parseFloat` on them, `Api` the
backend's response envelope and JavaScript truthiness, and `Wrappers` `Option` and `Result`.

Shapes follow the code:

- The upload store and the line-item editor update state, so they are classes with a
  `seq` field and `modifies this` methods.
- The loops that build the daily trend series, the PDF row positions, the renamed
  category record and the query parameters are methods with loop invariants or
  step-by-step updates.
- The rest is pure functions with lemmas.

Amounts are `real`, prices are `int` cents, and instants are `int` milliseconds with a day
of 86,400,000 ms. A calendar date in local time is the `Plans.LocalDate` record, with the
month counted from 0 as in JavaScript.

The analytics figures (category breakdown, top merchants, monthly trends, tax-deductible
total) come ready-made from the backend; the front end only copies and reshapes them, as
`src/services/analytics.service.ts` shows. The model does the same and has no client-side
grouping or ranking of receipts.

## Model

| member | source | states |
|---|---|---|
| UploadStore.ReceiptUploadStore.constructor | src/store/receipt.ts:14-15 | the store starts with no receipts |
| UploadStore.ReceiptUploadStore.AddReceipt | src/store/receipt.ts:16-19 | the receipt is appended at the end, the length grows by one, earlier entries stay in order, and the count of its id grows by one, so duplicates are not rejected |
| UploadStore.AddKeepsDuplicates | src/store/receipt.ts:16-19 | appending always adds one more entry with that id, whether or not the id was present |
| UploadStore.ReceiptUploadStore.UpdateReceipt | src/store/receipt.ts:20-25 | every entry with the id gets the patch merged in, every other entry is identical, the length and order are kept, and an absent id changes nothing |
| UploadStore.UpdateMatchingAt | src/store/receipt.ts:20-25 | position by position, a matching entry is merged with the patch and any other entry is unchanged |
| UploadStore.MapWhereAt | src/store/receipt.ts:20-25 | the per-id map keeps the length and changes exactly the matching positions |
| UploadStore.MapWhereLength | src/store/receipt.ts:20-25 | the per-id map keeps the length |
| UploadStore.MapWhereAbsent | src/store/receipt.ts:20-25 | the per-id map leaves a list without the id unchanged |
| UploadStore.ReceiptUploadStore.RemoveReceipt | src/store/receipt.ts:26-29 | exactly the entries with the id are dropped, the rest keep their order, and the length shrinks by the number of matching entries |
| UploadStore.RemoveMatchingMembers | src/store/receipt.ts:26-29 | an entry survives removal iff it was present and has a different id |
| UploadStore.RemoveMatchingAppend | src/store/receipt.ts:26-29 | removal distributes over concatenation, so the survivors keep their relative order |
| UploadStore.RemoveMatchingCount | src/store/receipt.ts:26-29 | removal shortens the list by the number of entries with the id |
| UploadStore.RemoveMatchingAbsent | src/store/receipt.ts:26-29 | removing an absent id changes nothing |
| UploadStore.RemoveMatchingIdempotent | src/store/receipt.ts:26-29 | removing the same id twice is the same as removing it once |
| UploadStore.RemoveUndoesAdd | src/store/receipt.ts:16-29 | adding a receipt with a fresh id and then removing that id restores the list |
| UploadStore.ReceiptUploadStore.ClearReceipts | src/store/receipt.ts:30 | the list becomes empty |
| UploadStore.ReceiptUploadStore.SetReceipts | src/store/receipt.ts:31 | the list is replaced wholesale by the argument |
| UploadStore.ReceiptUploadStore.SetProcessedData | src/store/receipt.ts:32-37 | matching entries get the data and status 'processed', all other fields and all other entries are unchanged, and the length is kept |
| UploadStore.SetProcessedMatchingAt | src/store/receipt.ts:32-37 | position by position, only matching entries change, and only in `processedData` and `status` |
| UploadStore.SetProcessedIsUpdate | src/store/receipt.ts:20-37 | setting processed data is an update with the patch {processedData, status: 'processed'} |
| UploadStore.SetProcessedLeavesDeclaredStatuses | src/types/receipt.ts:5 | a processed entry's status lies outside the four statuses the `Receipt` type declares |
| UploadConfig.UndeclaredStatusesInUse | src/types/receipt.ts:5 | the declared statuses are exactly pending, uploading, uploaded and error; processing and processed are not among them |
| UploadConfig.DefaultUploadConfigValues | src/types/receipt.ts:19-24 | the size limit is 10 MiB, the compression target 2 MiB and strictly smaller, the formats exactly JPEG, PNG and HEIC, and at most 10 files |
| ImageValidation.ValidateImage | src/utils/imageUtils.ts:28-47 | valid iff both the type and the size check pass; an error is present iff invalid; a bad type reports the type error, and only a good type with a bad size reports the size error |
| ImageValidation.ErrorText | src/utils/imageUtils.ts:32-44 | the returned `error` is the type-error text exactly when the type check failed and the size-error text exactly when the size check failed |
| ImageValidation.TypeErrorTakesPrecedence | src/utils/imageUtils.ts:32-44 | when both checks fail, the type error is the one reported |
| ImageValidation.SizeLimitIsInclusive | src/utils/imageUtils.ts:18-23 | a file of exactly 10 MiB passes and one byte more fails with the size error |
| ImageValidation.TypeErrorMessage | src/utils/imageUtils.ts:35 | the type error begins "Invalid file type. Allowed formats: " |
| ImageValidation.SizeErrorMessage | src/utils/imageUtils.ts:42 | the size error begins "File size exceeds " |
| ImageValidation.DefaultTypeErrorMessage | src/utils/imageUtils.ts:35 | with the default formats, the type error lists them joined by ", " |
| ImageValidation.DefaultSizeErrorMessage | src/utils/imageUtils.ts:42 | with the default limit, the size error reads "File size exceeds 10MB limit" |
| ImageValidation.CompressImage | src/utils/imageUtils.ts:52-75 | a file no larger than the target comes back unchanged; otherwise the compressor's result, or "Failed to compress image" when it fails |
| ImageValidation.Substring | src/utils/imageUtils.ts:100 | `substring` with clamped bounds is never longer than its text |
| ImageValidation.GenerateReceiptId | src/utils/imageUtils.ts:94-101 | every id starts with "receipt-", and when a UUID is available it is exactly what follows the prefix |
| ItemEditor.UpdateItemData | src/components/receipt/ReceiptDataEditor.tsx:27-34 | only the named field of the one item changes; the length, the other items and all other receipt fields are kept |
| ItemEditor.AddItemData | src/components/receipt/ReceiptDataEditor.tsx:36-41 | one blank item (empty description, quantity 1, price 0, confidence 100) is appended; nothing else changes |
| ItemEditor.RemoveItemData | src/components/receipt/ReceiptDataEditor.tsx:43-46 | an in-range index removes exactly that item, keeping the rest in order; an out-of-range index changes nothing; other receipt fields are kept |
| ItemEditor.WithoutIndexInRange | src/components/receipt/ReceiptDataEditor.tsx:45 | filtering by index removes exactly the item at an in-range index |
| ItemEditor.WithoutIndexOutOfRange | src/components/receipt/ReceiptDataEditor.tsx:45 | filtering by an out-of-range index keeps every item |
| ItemEditor.RemoveUndoesAdd | src/components/receipt/ReceiptDataEditor.tsx:36-46 | removing at the old length after adding an item restores the receipt |
| ItemEditor.ReceiptDataEditor.constructor | src/components/receipt/ReceiptDataEditor.tsx:20 | editing starts from the receipt's data |
| ItemEditor.ReceiptDataEditor.UpdateItem | src/components/receipt/ReceiptDataEditor.tsx:27-34 | the edited data becomes the one-item update of the old data |
| ItemEditor.ReceiptDataEditor.AddItem | src/components/receipt/ReceiptDataEditor.tsx:36-41 | the edited data gains the blank item at the end |
| ItemEditor.ReceiptDataEditor.RemoveItem | src/components/receipt/ReceiptDataEditor.tsx:43-46 | the edited data loses the item at an in-range index and is unchanged otherwise |
| ItemEditor.QuantityFromInput | src/components/receipt/ReceiptDataEditor.tsx:165 | a quantity entry that `parseInt` cannot read is stored as 0 |
| ItemEditor.PriceFromInput | src/components/receipt/ReceiptDataEditor.tsx:174 | a price entry that `parseFloat` cannot read is stored as 0 |
| ItemEditor.WholeNumberEntries | src/components/receipt/ReceiptDataEditor.tsx:165-174 | a typed whole number is stored as that number, both as a quantity and as a price |
| ItemEditor.EmptyEntryIsZero | src/components/receipt/ReceiptDataEditor.tsx:165-174 | clearing the field stores 0 |
| Text.ParseIntOfIntToString | src/components/receipt/ReceiptDataEditor.tsx:165 | `parseInt` reads back every integer's decimal text |
| Text.ParseFloatOfNatToString | src/components/receipt/ReceiptDataEditor.tsx:174 | `parseFloat` reads back every natural number's decimal text |
| Text.NatToStringDenotes | src/utils/priceUtils.ts:22 | a number's decimal text is a non-empty string of digits denoting that number |
| Text.NatToStringNoLeadingZero | src/utils/priceUtils.ts:22 | the decimal text starts with '0' only for zero |
| ReceiptHistory.BackendToStoredReceipt | src/services/receipt-history.service.ts:52-86 | extracted data is present iff the backend merchant is a non-empty text; id, user, URLs, file name, status, error and timestamps are copied |
| ReceiptHistory.ConvertedDataDefaults | src/services/receipt-history.service.ts:53-72 | a missing total becomes 0 and a missing date ''; merchant, date and total confidence are 1; there are as many items as backend line items, 0 when absent |
| ReceiptHistory.ConvertedItemAt | src/services/receipt-history.service.ts:63-68 | each item takes the line item's description, quantity and unit price as its price, with confidence 1 |
| ReceiptHistory.ToStoredItemsAt | src/services/receipt-history.service.ts:63-68 | the item conversion keeps length and order |
| ReceiptHistory.ReceiptQueryParams | src/services/receipt-history.service.ts:91-130 | limit, sortBy and sortOrder are always sent; startAfter, category and search only when non-empty; the dates only when set; minAmount and maxAmount whenever defined, 0 included |
| ReceiptHistory.DefaultQuery | src/services/receipt-history.service.ts:91-102 | with no options, exactly limit 20, sortBy createdAt and sortOrder desc are sent |
| ReceiptHistory.ToStoredReceipts | src/services/receipt-history.service.ts:143-153 | every backend receipt is converted, in order |
| ReceiptHistory.GetReceiptsResponse | src/services/receipt-history.service.ts:143-153 | an unsuccessful answer is the error "Failed to fetch receipts"; otherwise the receipts are exactly the backend's receipts converted one by one, in order, and the paging cursor and `hasMore` are passed through |
| ReceiptHistory.GetReceiptResponse | src/services/receipt-history.service.ts:157-173 | a receipt is returned iff the answer succeeded, and it is exactly the backend's record converted, id included |
| ReceiptHistory.ToOutgoingItemsAt | src/services/receipt-history.service.ts:194-199 | each outgoing line item carries the item's fields and the line total price × quantity |
| ReceiptHistory.LineItemsRoundTrip | src/services/receipt-history.service.ts:194-199 | items sent and read back keep description, quantity and price; only the confidence becomes 1 |
| ReceiptHistory.CreateReceiptBody | src/services/receipt-history.service.ts:181-201 | the body carries imageUrl and fileName, plus the extracted fields when there is data; lineItems only when there is at least one item |
| ReceiptHistory.ProcessedDataUpdates | src/services/receipt-history.service.ts:239-256 | the update carries the same extracted fields and no image URL or file name |
| ReceiptHistory.SameDataInBothBodies | src/services/receipt-history.service.ts:181-256 | the create body is the update body plus imageUrl and fileName |
| ReceiptHistory.RenameCategoryStats | src/services/receipt-history.service.ts:290-298 | the intended record: exactly the backend's categories in the same order, `amount` renamed to `total` and count kept; empty when the backend sends none; the keys stay distinct |
| ReceiptHistory.StatsByCategoryAsWritten | src/services/receipt-history.service.ts:290-298 | as written: a category keyed "__proto__" is lost and every other backend category appears renamed; without such a key the record is exactly the renamed entries, in order |
| ReceiptHistory.AsWrittenEntriesComeFromBackend | src/services/receipt-history.service.ts:290-298 | every entry of the record as written is a renamed backend entry whose key is not "__proto__", so nothing is invented |
| ReceiptHistory.ProtoCategoryIsDropped | src/services/receipt-history.service.ts:293-296 | a backend category named "__proto__" does not appear in the record as written |
| ReceiptHistory.GetStatistics | src/services/receipt-history.service.ts:284-327 | an unsuccessful first answer is the error "Failed to fetch statistics"; otherwise count and total are passed through, `byCategory` is the intended record: one entry per backend category, in order, each with `amount` renamed `total` and distinct keys (empty when the backend sends none), and the recent total is that of the second answer, or 0 when it failed |
| Analytics.DaysDiff | src/services/analytics.service.ts:20-22 | the day count is the floor of the span in days |
| Analytics.PeriodFor | src/services/analytics.service.ts:24-30 | this_month iff at most 31 days, ytd iff 32 to 365 days, custom iff more |
| Analytics.PeriodIsMonotone | src/services/analytics.service.ts:24-30 | a longer span never selects a shorter period |
| Analytics.AnalyticsParams | src/services/analytics.service.ts:32-39 | the period is sent, and the start and end dates iff the period is custom |
| Analytics.BoundsSentForLongRanges | src/services/analytics.service.ts:20-39 | the dates are sent iff the range spans at least 366 whole days |
| Analytics.SpendingTrends | src/services/analytics.service.ts:94-101 | one zero-amount, zero-count slot for each day from dateFrom while not after dateTo, the k-th at dateFrom plus k days: daysDiff + 1 slots when dateFrom ≤ dateTo, none otherwise |
| Analytics.TrendDaysCount | src/services/analytics.service.ts:95 | the loop stops after exactly daysDiff + 1 steps, or none for a reversed range |
| Analytics.TrendDaysBounds | src/services/analytics.service.ts:95 | a range within one day has one slot; a reversed range has none |
| Analytics.YearText | src/services/analytics.service.ts:105 | the year text is the prefix of the month text before its first '-' |
| Analytics.YearTextOfDigits | src/services/analytics.service.ts:105 | for "yyyy-…" the year text is "yyyy" |
| Analytics.ToMonthlyComparison | src/services/analytics.service.ts:104-112 | month, amount and count are copied |
| Analytics.MonthYearIsParsed | src/services/analytics.service.ts:105-108 | a month labelled "<year>-…" carries that year as a number |
| Analytics.MonthlyComparisons | src/services/analytics.service.ts:104-112 | one comparison entry per backend month, in order: each is that month's conversion, with the month text, amount and count copied and the year parsed from the text |
| Analytics.SpendingAlerts | src/services/analytics.service.ts:122-140 | at most one alert, only with two or more months; it is the overspending alert carrying the last month's amount and a change above 20 % |
| Analytics.AlertIffMoreThanAFifthHigher | src/services/analytics.service.ts:125-139 | the alert fires iff the previous month is positive and the last exceeds it by more than a fifth |
| Analytics.ChangeAboveTwentyPercent | src/services/analytics.service.ts:128-131 | a change above 20 % over a positive month is the same as exceeding 1.2 times it |
| Analytics.GetAnalyticsData | src/services/analytics.service.ts:72-152 | an unsuccessful answer is the error "Failed to fetch analytics"; otherwise breakdown and merchants as sent, the trend slots, the monthly comparison, tax total with count 0 and no categories, the alert, and the summary figures passed through |
| UsageLimit.HasReachedLimit | src/hooks/useUsageLimit.ts:6-15 | no usage or an unlimited plan never reaches the limit; otherwise reached iff processed ≥ limit |
| UsageLimit.GetRemainingReceipts | src/hooks/useUsageLimit.ts:17-26 | 0 without usage, -1 when unlimited, otherwise a non-negative value that is 0 or exactly limit − processed, and at least limit − processed: max(0, limit − processed) |
| UsageLimit.CanProcessReceipt | src/hooks/useUsageLimit.ts:28-30 | processing is allowed iff the limit is not reached |
| UsageLimit.RemainingIsZeroIffReached | src/hooks/useUsageLimit.ts:14-25 | with a finite limit, nothing remains iff the limit is reached, and otherwise the remainder is positive |
| UsageLimit.GetUsagePercentage | src/hooks/useUsageLimit.ts:32-36 | 0 without usage or when unlimited; a finite result never exceeds 100 |
| UsageLimit.PercentageBounds | src/hooks/useUsageLimit.ts:35 | with a positive limit the percentage lies in [0, 100] and is 100 iff the limit is reached |
| UsageLimit.ZeroLimitPercentage | src/hooks/useUsageLimit.ts:35 | a zero limit gives 100 once something is processed and NaN (0/0) before |
| Plans.PlansAreWellFormed | src/types/subscription.ts:57-104 | three plans with distinct ids, each id the name of its tier, and the first plan free |
| Plans.PricesIncrease | src/types/subscription.ts:62-93 | prices are 0, 900 and 2900 cents, strictly increasing |
| Plans.OnlyProIsUnlimited | src/types/subscription.ts:66-97 | 10 and 100 receipts a month, and -1 (unlimited) on pro only |
| Plans.ExportFormatsGrow | src/types/subscription.ts:67-98 | each plan's export formats are a prefix of the next plan's |
| Plans.OnlyBasicIsPopular | src/types/subscription.ts:80 | basic is the one plan marked popular |
| Plans.FindByTier | src/services/subscription.service.ts:124 | `find` returns a plan of the tier from the table, or nothing when there is none |
| Plans.PlanForTier | src/services/subscription.service.ts:124 | the lookup with the `PLANS[0]` fallback always yields a plan of the table |
| Plans.PlanForTierMatches | src/services/subscription.service.ts:124 | every tier finds its own plan, so the fallback is never taken |
| Subscription.DateOr | src/services/subscription.service.ts:58-59 | a present date text is used, otherwise the current time |
| Subscription.FirstPresent | src/services/subscription.service.ts:55 | `??`: the first defined flag, even false, else false |
| Subscription.MapBackendSubscription | src/services/subscription.service.ts:43-61 | id falls back to subscriptionId then ''; planId to plan then 'free'; status to 'active'; the period start is currentPeriodStart, else currentPeriodStartDate, else the period end's text, else now; the period end is currentPeriodEnd, else currentPeriodEndDate, else now; createdAt and updatedAt fall back to now; cancelAtPeriodEnd takes the camelCase flag when defined, then snake_case, then false; the Stripe ids fall back to snake_case then '' |
| Subscription.PeriodStartFallsBackToEnd | src/services/subscription.service.ts:51-53 | without a start, the period starts at the period end when that is given, and at now otherwise |
| Subscription.EmptyRecordDefaults | src/services/subscription.service.ts:43-61 | an empty record gives plan 'free', status 'active', no cancellation and empty ids |
| Subscription.GetSubscriptionAsWritten | src/services/subscription.service.ts:66-95 | as written: any answer with a `status` property is read as an envelope, and anything but 'success' with a subscription gives null |
| Subscription.DirectRecordWithStatusIsDropped | src/services/subscription.service.ts:76-84 | a direct subscription record with status 'active' is read as a failed envelope and lost |
| Subscription.GetSubscription | src/services/subscription.service.ts:66-95 | a 404 is no subscription and any other failure is an error; an envelope ('success'/'error') gives its subscription or null; any other answer is a direct record and is mapped |
| Subscription.DirectRecordIsKept | src/services/subscription.service.ts:76-84 | a direct record with a subscription status is mapped and keeps that status |
| Subscription.CorrectedAgreesOnEnvelopes | src/services/subscription.service.ts:66-95 | on envelopes and records without status the two readings agree |
| Subscription.PlanTierAsWritten | src/services/subscription.service.ts:234-240 | the object lookup with `|| 'free'` yields a tier or an inherited member, never nothing |
| Subscription.PrototypeKeyEscapesFallback | src/services/subscription.service.ts:234-240 | planId "constructor" yields the inherited constructor, not 'free' |
| Subscription.PlanIdToTier | src/services/subscription.service.ts:234-240 | free, basic and pro map to the tier of that name; anything else is free |
| Subscription.PlanIdToTierAgreesWithLookup | src/services/subscription.service.ts:234-240 | the object lookup yields a tier iff the planId is not an inherited member name, and then the same tier as the corrected map |
| Subscription.GetCurrentPlanTier | src/services/subscription.service.ts:226-245 | free on error or without a subscription, otherwise the intended tier of the planId (the corrected lookup, so an inherited name such as "constructor" also gives free) |
| Subscription.CurrentTierHasAPlan | src/services/subscription.service.ts:124-125 | the current tier always finds its own plan |
| Subscription.SetMonth | src/services/subscription.service.ts:128 | `setMonth` normalises the month into 0..11, carrying whole years |
| Subscription.GetUsageStats | src/services/subscription.service.ts:100-135 | the processed count comes from a successful answer, else 0; the limit is the current tier's plan allowance; the reset date is the first instant of the next month |
| Subscription.ResetDateRollsOver | src/services/subscription.service.ts:127-128 | the reset date is next month of the same year, or January of the next year after December |
| Subscription.LimitOfEachTier | src/services/subscription.service.ts:124-125 | free gets 10 receipts a month, basic 100, pro -1 (unlimited) |
| Subscription.HasReachedUsageLimit | src/services/subscription.service.ts:250-264 | false on error or with an unlimited plan, otherwise processed ≥ limit |
| Subscription.ServiceAndHookAgree | src/services/subscription.service.ts:250-264 | the service's check gives the same answer as the hook's for the same usage |
| PriceFormat.FormatPrice | src/utils/priceUtils.ts:4-7 | 'Free' for 0, otherwise a text starting with '$' |
| PriceFormat.PriceRoundsToNearestDollar | src/utils/priceUtils.ts:6 | for a positive price, '$' and the nearest whole dollar, a half rounding up |
| PriceFormat.TwoDigits | src/utils/priceUtils.ts:14 | two digits denoting a number below 100 |
| PriceFormat.FormatPriceDecimal | src/utils/priceUtils.ts:12-15 | 'Free' for 0, otherwise a text starting with '$' |
| PriceFormat.PriceDecimalDenotesAmount | src/utils/priceUtils.ts:14 | for a positive price, '$' dollars '.' two-digit cents, denoting exactly the price |
| PriceFormat.PlanPriceTexts | src/utils/priceUtils.ts:4-15 | the plan prices print as $9 and $29, or $9.00 and $29.00 |
| PriceFormat.FormatReceiptLimit | src/utils/priceUtils.ts:20-23 | 'Unlimited' for -1, otherwise a decimal text that reads back as the limit |
| PriceFormat.UnlimitedIsNotANumber | src/utils/priceUtils.ts:21 | the unlimited label does not read as any number |
| Auth.FirstNonPassword | src/services/auth.service.ts:37-39 | the index of the first provider other than 'password', every earlier one being 'password' |
| Auth.GetPrimaryProviderId | src/services/auth.service.ts:31-42 | 'unknown' without providers; otherwise an id from the list: the first non-password one, or the first provider when there is none |
| Auth.OAuthProviderPreferred | src/services/auth.service.ts:31-42 | with only password providers the result is 'password'; with some other provider it is never 'password' |
| Auth.MapFirebaseUser | src/services/auth.service.ts:47-53 | uid, email, display name and photo are copied, and the provider is the primary one |
| Auth.GetAuthErrorMessage | src/services/auth.service.ts:58-75 | each of the 12 known codes gets its text; otherwise the error's own message, or "An unexpected error occurred." when that is empty |
| Auth.ErrorTableIsFaithful | src/services/auth.service.ts:59-72 | every text of the table is non-empty |
| Auth.AuthErrorAsWritten | src/services/auth.service.ts:58-75 | as written, the lookup yields an inherited object member exactly for a code that is not a known code but an `Object.prototype` member name |
| Auth.InheritedCodeEscapesFallback | src/services/auth.service.ts:74 | the code "constructor" gets the inherited constructor instead of the error's own message |
| Auth.AuthErrorAgreesWithLookup | src/services/auth.service.ts:58-75 | as written, a text comes back iff the code is not an inherited member name, and then it is the text of the corrected lookup |
| Auth.ErrorMessageNeverEmpty | src/services/auth.service.ts:74 | the user always gets a non-empty text |
| Export.AmountOrBlank | src/utils/export.service.ts:18-19 | a missing or zero subtotal or tax gives the empty cell, any other amount itself |
| Export.CsvRowOf | src/utils/export.service.ts:9-23 | file name, status and creation time are copied; without data the defaults are date '', merchant '', amount 0, currency '$' and empty texts; with data the total and merchant are used, a non-empty date is formatted, currency falls back to '$', category and payment method to '', and subtotal and tax are blank when 0 or missing |
| Export.CsvRows | src/utils/export.service.ts:9-23 | one row per receipt, in order |
| Export.CsvRowsFollowReceipts | src/utils/export.service.ts:9-23 | row i names receipt i's file and carries its total |
| Export.PdfTotalAppend | src/utils/export.service.ts:59-62 | the total of two lists together is the sum of their totals |
| Export.PdfTotalBounds | src/utils/export.service.ts:59-62 | receipts without data add nothing, and non-negative totals give a non-negative sum |
| Export.Truncate | src/utils/export.service.ts:104-105 | a text within the limit is unchanged; a longer one is its first `keep` characters and '...' |
| Export.PdfRowOf | src/utils/export.service.ts:94-105 | merchant at most 25 and category at most 15 characters; a long merchant is its first 22 characters and '...'; the category is the receipt's or 'N/A', cut to 12 characters and '...' past 15; a non-empty date is formatted, otherwise 'N/A'; missing data prints Unknown, N/A and $0.00 |
| Export.PlaceRows | src/utils/export.service.ts:43-113 | one position per row; the first row is at 77 on the first page, or at the margin of the second page when 77 is past the bottom margin; a row starts a new page exactly when the previous row plus 7 is past the bottom margin, and then sits at the top margin, otherwise 7 below the previous row; no row lies above the margin, and on a page of at least 40 none lies below the bottom margin |
| ReceiptStatistics.InsertPermutes | src/components/receipt/ReceiptStatistics.tsx:27 | inserting adds exactly the one entry |
| ReceiptStatistics.InsertKeepsOrder | src/components/receipt/ReceiptStatistics.tsx:27 | inserting into a list ordered by total keeps it ordered |
| ReceiptStatistics.SortIsCorrect | src/components/receipt/ReceiptStatistics.tsx:26-27 | the sort orders by total, largest first, and is a permutation of the entries |
| ReceiptStatistics.TopCategoriesAreTheLargest | src/components/receipt/ReceiptStatistics.tsx:26-28 | three entries, or all when fewer; largest total first; all taken from the statistics; no omitted category has a larger total than the smallest shown |
| ReceiptStatistics.TopCategoriesAreDistinct | src/components/receipt/ReceiptStatistics.tsx:26-28 | the categories shown are distinct |
| ReceiptStatistics.DistinctCount | src/components/receipt/ReceiptStatistics.tsx:26 | an entry occurs at most once among entries with distinct keys |

## Left out

- Network calls (axios and react-query), Firebase sign-in and Stripe are not modelled.
  Their answers are parameters: an `ApiResponse`, a `Fetch` outcome, or the compressor's
  `Result`.
- The browser-image-compression library, `crypto.randomUUID`, `Date.now()` and
  `Math.random()` are not modelled either. Their results are parameters of
  `CompressImage` and `GenerateReceiptId`.
- Rendering is not modelled: `toFixed` on floating-point values, `toISOString`, date-fns
  `format`, and jsPDF and Papa output. A formatted date keeps the text it was formatted
  from, a PDF amount keeps its value, and query parameters carry typed values rather than
  strings.
- Floating point is modelled as exact `real` arithmetic. Prices are exact integer cents.
- Tie-breaking of the JavaScript sort is not stated. NaN totals and the comparator's
  behaviour on them are not modelled.
- `UploadConfig.maxFiles` is enforced by the upload component
  (src/components/receipt/ReceiptUpload.tsx:42), not by the store.
  `AddReceipt` does not check it, just as `addReceipt` does not.
- The upload and processing flow in ReceiptUpload.tsx and ReceiptProcessor.tsx is not
  part of this model. Only its effect on the store is.
- The store's other record fields (file, preview, progress) are carried in `Receipt`, but
  no operation computes them.
- ReceiptHistory.RenameCategoryStats: requires distinct category keys, which every
  JavaScript object has. It is the intended record: it keeps a category named "__proto__",
  which the code as written loses (see "## Findings"). It also lists the categories in the
  backend's order, whereas a JavaScript object lists integer-like keys (such as "2024")
  first, in ascending numeric order; that reordering is not modelled.
- ReceiptHistory.GetStatistics: requires the same of the backend's record, and builds
  `byCategory` as RenameCategoryStats does, with the same two differences from the code.
- ItemEditor.UpdateItemData: requires an in-range index. `updateItem` at an index past
  the end would create a sparse array; the editor only calls it for listed items.
- ItemEditor.ReceiptDataEditor.UpdateItem: requires an in-range index, for the same reason.
- Text.ParseInt: does not skip Unicode white space beyond space, tab, newline and
  carriage return.
- Text.ParseFloat: does not read exponents or "Infinity".
- ImageValidation.SizeErrorMessage: requires a limit of whole MiB. The megabyte figure
  of any other limit is a fraction printed by JavaScript's number formatting.
- Analytics.SpendingTrends: days are 24-hour steps in milliseconds. Daylight-saving
  shifts of `setDate` are not modelled, and the slot's date is an instant, not the
  'yyyy-MM-dd' text.
- Subscription.GetUsageStats: takes the current local time as a parameter, and assumes
  the processed count is a non-negative integer.
- Subscription.SetMonth: keeps the day of the month, which is 1 where it is used. An
  overflowing day is not rolled into the next month.
- Subscription.DateOr: a date is the text it is parsed from or the current time. Date
  parsing is not modelled.
- Subscription.GetSubscription: the envelope statuses are taken to be 'success' and
  'error'. The services only ever compare `status` with 'success'. The `ApiResponse`
  declaration (src/types/index.ts) is not part of this model.
- Auth.GetAuthErrorMessage: is the corrected lookup; a code naming an inherited object
  member, such as "constructor", is treated as unknown (see "## Findings" for the code as
  written).
- Export.CsvRowOf: an unparseable date makes date-fns `format` throw a `RangeError`, which
  aborts the whole CSV export; the model formats every non-empty date and never fails.
  The same holds for an invalid creation time.
- Export.PdfRowOf: an unparseable date aborts the PDF export in the same way; not modelled.
- Export.PlaceRows: the bottom-margin bound is stated for pages at least 40 high. On a
  shorter page a freshly started row already lies below the bottom margin.
- The PDF header positions (x coordinates, fonts, the header row) are not modelled.

## Findings

| source | as written | input that shows it | evidently intended | confidence | as-written member | corrected member |
|---|---|---|---|---|---|---|
| src/services/subscription.service.ts:234-240 | `planIdToTier[subscription.planId] \|\| 'free'` looks the plan id up in a plain object, which also answers inherited member names | planId "constructor" (also "toString", "hasOwnProperty", …) gives `Object`'s constructor function instead of 'free' | any plan id other than free, basic or pro gives 'free' | not executed; follows from JavaScript property lookup | Subscription.PlanTierAsWritten, Subscription.PrototypeKeyEscapesFallback | Subscription.PlanIdToTier, Subscription.PlanIdToTierAgreesWithLookup, Subscription.GetCurrentPlanTier |
| src/services/subscription.service.ts:76-84 | an answer is read as an `ApiResponse` envelope whenever it has a `status` property, but a direct `BackendSubscription` also has `status` | a direct record { planId: 'pro', status: 'active' } is read as a failed envelope and the subscription is lost (null, so the free tier) | only an envelope ('success' or 'error') is unwrapped; a direct record is mapped | not executed; depends on the backend sending direct records | Subscription.GetSubscriptionAsWritten, Subscription.DirectRecordWithStatusIsDropped | Subscription.GetSubscription, Subscription.DirectRecordIsKept |
| src/services/auth.service.ts:58-75 | `errorMessages[error.code] \|\| error.message \|\| …` looks the code up in a plain object, which also answers inherited member names | an error with code "constructor" gets `Object`'s constructor function instead of its own message | any code other than the 12 known ones gives the error's message, else "An unexpected error occurred." | not executed; follows from JavaScript property lookup | Auth.AuthErrorAsWritten, Auth.InheritedCodeEscapesFallback | Auth.GetAuthErrorMessage, Auth.AuthErrorAgreesWithLookup |
| src/services/receipt-history.service.ts:290-298 | `byCategory[category] = {...}` on a `{}` literal; for the key "__proto__" the assignment runs the inherited setter, which replaces the prototype and adds no entry | a backend `byCategory` of { "__proto__": { amount: 5, count: 1 } } (a key `JSON.parse` keeps as an own key, and the category is free text) gives a record with no entries | every backend category appears in the record | not executed; follows from JavaScript's `__proto__` accessor | ReceiptHistory.StatsByCategoryAsWritten, ReceiptHistory.ProtoCategoryIsDropped | ReceiptHistory.RenameCategoryStats, ReceiptHistory.GetStatistics |

# Tabungan Keluarga — a verified model of the transaction core

Tabungan Keluarga ("family savings") is a household finance tracker. Family members record
transactions of four types:

- **income** credits a storage account;
- **expense** and **savings** debit one;
- **transfer** moves money between two accounts.

The server keeps a ledger of these records and the balance of every storage account. It also
serves a monthly statistics report and a gold price per gram. The browser shows an entry form
with a Rupiah amount field, a filterable transactions table, a per-account dialog and a budget
dialog per expense category.

This project models that core in Dafny and proves what it promises:

| Module | Models | Key properties |
|---|---|---|
| `Reconciler` (`reconciler.dfy`) | The transactions route. A `Store` class holds the balances map and the ledger. Its `Create`, `Update` and `Delete` methods apply, reverse, or reverse and re-apply a transaction's effect, each balance update clamped at zero. | The effect of each handler, create-then-delete and update round trips, conservation of transfers, the listing's filter and newest-first order. |
| `Stats` (`stats.dfy`) | The statistics route: month range, totals, per-category breakdowns, member contributions, recent transactions. | The month range is one calendar month; totals and breakdowns are exact and bounded. |
| `GoldPrice` (`gold_price.dfy`) | The gold-price route. The five-minute cache is a `GoldPriceCache` class. Its `Get` method falls through the spot-price tier, the estimate tier and the fixed default. | Cache hit and miss behaviour, which tier wins, positivity. |
| `RupiahInput` (`rupiah_input.dfy`) | The amount field's formatter (a dot every three digits) and its parser. | Round trips, idempotence, correct grouping in both directions. |
| `TransactionForm` (`transaction_form.dfy`) | The add-transaction dialog as a class holding the form state. | The submit rule, the type-change reset, the posted body. |
| `TransactionList` (`transaction_list.dfy`) | The transactions table: filters, category options, amount sign and colour, the edit form's prefill. | — |
| `StorageSummary` (`storage_summary.dfy`) | The per-account dialog: display value, money in and out. | How money in and out relates to the balance updates. |
| `BudgetProgress` (`budget_progress.dfy`) | The expense-category dialog: progress bar colour bands, captions, rows by category name. | — |

`Common` (`common.dfy`) holds the shared records and the ordering of dates.

Money is an unbounded integer number of Rupiah. Gold prices and weights are reals. A date is a
`DateTime(year, month, day, ms)`, ordered lexicographically. An optional string counts as
"present" only when it is set and not empty, as JavaScript truthiness does.

## Model

| member | source | states |
|---|---|---|
| Reconciler.StatusCode | src/app/api/apps/tabungan/transactions/route.ts:200-202 | A failure is answered with 400 exactly when the id is missing; every other failure is a 500. |
| Reconciler.UpdateBalance | src/app/api/apps/tabungan/transactions/route.ts:5-17 | Only the named account changes. Its new balance is the old one plus or minus the amount, floored at zero. An unknown account leaves the map alone. Non-negative balances stay non-negative. |
| Reconciler.Legs | src/app/api/apps/tabungan/transactions/route.ts:81-102 | The accounts a transaction moves money through are among its present from/to ids. |
| Reconciler.CreateEffect | src/app/api/apps/tabungan/transactions/route.ts:81-102 | Creating touches only the transaction's legs and keeps balances non-negative. A transfer naming only one account, or an unknown type, changes nothing. |
| Reconciler.UpdateEffect | src/app/api/apps/tabungan/transactions/route.ts:154-164 | Re-applying on edit touches only the legs and keeps balances non-negative. An unknown type changes nothing. |
| Reconciler.ReverseEffect | src/app/api/apps/tabungan/transactions/route.ts:138-152 | Reversing a stored record touches only its legs and keeps balances non-negative. An unknown type changes nothing. |
| Reconciler.CreateEffectLegs | src/app/api/apps/tabungan/transactions/route.ts:81-102 | For every input, clamped or not: income sets the destination to max(0, balance + amount); expense and savings set the source to max(0, balance - amount); a transfer between two accounts sets the source to max(0, balance - amount) and the destination to max(0, balance + amount); a transfer to itself ends at max(0, max(0, balance - amount) + amount). |
| Reconciler.UpdateEffectLegs | src/app/api/apps/tabungan/transactions/route.ts:154-164 | The same clamped value for every leg of an edit's re-application, where each transfer leg is applied on its own whenever its account is present. |
| Reconciler.ReverseEffectLegs | src/app/api/apps/tabungan/transactions/route.ts:138-152 | The same for reversing a stored record, with the signs flipped: a reversed income sets its destination to max(0, balance - amount), a reversed debit sets its source to max(0, balance + amount). |
| Reconciler.UpdateEffectExact | src/app/api/apps/tabungan/transactions/route.ts:154-164 | When no debit would go below zero, every balance moves by exactly the unclamped per-type delta. |
| Reconciler.CreateEffectExact | src/app/api/apps/tabungan/transactions/route.ts:81-102 | Under the same no-clamp condition, and for anything but a one-account transfer, creating adds exactly the unclamped delta to every balance. |
| Reconciler.ReverseEffectExact | src/app/api/apps/tabungan/transactions/route.ts:138-152 | When no reversed credit would go below zero, every balance moves by exactly minus the record's delta. |
| Reconciler.NullIfEmpty | src/app/api/apps/tabungan/transactions/route.ts:104-115 | A missing or empty id becomes null; any other value is kept. |
| Reconciler.Normalize | src/app/api/apps/tabungan/transactions/route.ts:104-115 | The stored record is canonical: no empty reference. It keeps the id, type and amount, dates a missing date to now. Every present reference (description, member, category, account) is stored with its own value, and every absent one as null. It has the same effect on every account as the request body. |
| Reconciler.NormalizeUpdate | src/app/api/apps/tabungan/transactions/route.ts:166-178 | The rewritten record keeps its id and is canonical. A missing date keeps the old date. Its effect equals the body's effect. |
| Reconciler.CreateThenDeleteRestores | src/app/api/apps/tabungan/transactions/route.ts:81-115 | Creating and then deleting a transaction restores every balance, when nothing is clamped and it is not a one-account transfer. |
| Reconciler.ApplyThenDeleteRestores | src/app/api/apps/tabungan/transactions/route.ts:154-178 | An edit's re-application followed by a delete of the rewritten record restores every balance when nothing is clamped. |
| Reconciler.ApplyThenReverseFits | src/app/api/apps/tabungan/transactions/route.ts:138-164 | After an unclamped application, reversing the stored record cannot clamp either. |
| Reconciler.UpdateNetChange | src/app/api/apps/tabungan/transactions/route.ts:138-164 | Editing only the amount moves each leg by exactly the new amount minus the old one. |
| Reconciler.CreateThenUpdateActsAsSingleCreate | src/app/api/apps/tabungan/transactions/route.ts:81-164 | Creating A and editing it into B leaves the balances a single create of B would leave, when nothing clamps. |
| Reconciler.TransferConserves | src/app/api/apps/tabungan/transactions/route.ts:96-101 | A funded transfer between two distinct accounts debits one and credits the other by the amount; their sum is unchanged. |
| Reconciler.OneLegTransferAsymmetry | src/app/api/apps/tabungan/transactions/route.ts:96-101 | POST ignores a transfer naming one account. PUT still applies that one leg. |
| Reconciler.ClampBreaksRoundTrip | src/app/api/apps/tabungan/transactions/route.ts:12-14 | A concrete history: income 500000, then expense 700000 clamped to 0, then deleting the expense. This leaves 700000, not 500000. |
| Reconciler.OneLegTransferBreaksRoundTrip | src/app/api/apps/tabungan/transactions/route.ts:96-101 | A transfer naming only its source changes nothing on create but is refunded on delete. |
| Reconciler.IndexOf | src/app/api/apps/tabungan/transactions/route.ts:138-140 | The lookup by id finds the first record with that id, or reports that none has it. |
| Reconciler.Select | src/app/api/apps/tabungan/transactions/route.ts:31-46 | Exactly the records matching every given filter are kept, each as often as in the ledger. |
| Reconciler.Insert | src/app/api/apps/tabungan/transactions/route.ts:57 | Inserting into a newest-first list keeps it newest first and adds exactly one element. |
| Reconciler.SortDesc | src/app/api/apps/tabungan/transactions/route.ts:57 | The result is ordered newest first and is a permutation of its input. |
| Reconciler.ListOf | src/app/api/apps/tabungan/transactions/route.ts:20-65 | The listing is newest first, and every record in it is a ledger record matching the filters. |
| Reconciler.SortedCons | src/app/api/apps/tabungan/transactions/route.ts:57 | A record no older than every element of a newest-first list can be put in front. |
| Reconciler.ListIsExact | src/app/api/apps/tabungan/transactions/route.ts:20-65 | GET returns every matching record exactly as often as the ledger holds it, nothing else, newest first. |
| Reconciler.UnfilteredListIsComplete | src/app/api/apps/tabungan/transactions/route.ts:20-65 | Without filters GET returns the whole ledger. |
| Reconciler.FirstMatchIsIndexOf | src/app/api/apps/tabungan/transactions/route.ts:138-140 | The first position holding the id is the one the lookup returns. |
| Reconciler.Store.constructor | src/app/api/apps/tabungan/transactions/route.ts:2 | The store starts with the given balances and ledger. |
| Reconciler.Store.Find | src/app/api/apps/tabungan/transactions/route.ts:138-140 | The linear search returns the lookup's answer. |
| Reconciler.Store.UpdateStorageBalance | src/app/api/apps/tabungan/transactions/route.ts:5-17 | The balances become the clamped update; the ledger is unchanged. |
| Reconciler.Store.Create | src/app/api/apps/tabungan/transactions/route.ts:68-129 | The balances become the create effect and stay non-negative. The record is appended in normalised form exactly when the new id is not taken. Otherwise the result is a failure and the ledger is unchanged. |
| Reconciler.Store.Reverse | src/app/api/apps/tabungan/transactions/route.ts:138-152 | The balances become the reversal of the record; the ledger is unchanged. |
| Reconciler.Store.Update | src/app/api/apps/tabungan/transactions/route.ts:132-192 | Without an id, nothing changes. For an unknown id the new effect is still applied, and the result is not found. Otherwise the old effect is reversed, the new one applied, and the record rewritten in place. Balances stay non-negative. |
| Reconciler.Store.Delete | src/app/api/apps/tabungan/transactions/route.ts:195-227 | A missing id gives a 400. An unknown id gives not found and changes nothing. Otherwise the record's effect is reversed and exactly that record removed. |
| Reconciler.Store.List | src/app/api/apps/tabungan/transactions/route.ts:20-65 | The listing is newest first and holds exactly the matching records of the ledger. |
| Stats.MonthRangeIsOneMonth | src/app/api/apps/tabungan/stats/route.ts:12-21 | The range runs from the first of the month at midnight to the last day at 23:59:59.000. A valid date lies in it iff it is in that month, except the final sub-second. |
| Stats.MonthRange | src/app/api/apps/tabungan/stats/route.ts:12-21 | Both ends lie in the same calendar month. The start is the first day at midnight; the end is the month's last day at 23:59:59.000. |
| Stats.FetchMonth | src/app/api/apps/tabungan/stats/route.ts:10-33 | The fetched records are newest first and are the ledger records dated within the month, each as often as the ledger holds it; without a month, the whole ledger. |
| Stats.Where | src/app/api/apps/tabungan/stats/route.ts:36-40 | The selection keeps exactly the records the selector picks and never lengthens the list. |
| Stats.SumOf | src/app/api/apps/tabungan/stats/route.ts:36-40 | The summed amounts of the selected records; SumOfNonNegative bounds it and SumOfTypeIsTypeTotal computes it per type. |
| Stats.SumOfAppend | src/app/api/apps/tabungan/stats/route.ts:36-40 | A sum over a selection splits over concatenated lists. |
| Stats.SumOfNonNegative | src/app/api/apps/tabungan/stats/route.ts:36-40 | With no negative amounts, a selection's sum lies between zero and the sum of every amount. |
| Stats.CategoryTotals | src/app/api/apps/tabungan/stats/route.ts:46-72 | One entry per category, in order, carrying the name, the limit and the sum of that category's transactions of the kind. |
| Stats.NonZero | src/app/api/apps/tabungan/stats/route.ts:100-101 | Exactly the entries with a positive amount are kept. |
| Stats.Contributions | src/app/api/apps/tabungan/stats/route.ts:75-90 | One entry per member, with that member's income and savings totals. |
| Stats.Compute | src/app/api/apps/tabungan/stats/route.ts:36-105 | The balance is income minus expenses minus savings. The count is the number of fetched records. The recent list is the first ten of them. Every breakdown entry is positive, and there is one contribution per member. |
| Stats.GetStats | src/app/api/apps/tabungan/stats/route.ts:10-105 | The count is the number of the month's records. The recent list is the newest ten of them (all of them when fewer), newest first, each a ledger record dated in the month, and no other record of the month is newer than any recent one. |
| Stats.NewestPrefix | src/app/api/apps/tabungan/stats/route.ts:93 | The first n records of a newest-first list are newest first, and none of the rest is newer than any of them. |
| Stats.TotalsCountOnlyTheirType | src/app/api/apps/tabungan/stats/route.ts:36-42 | Adding one transaction raises only its own type's total, by its amount. A transfer raises none and leaves the balance alone. |
| Stats.SumOfTypeIsTypeTotal | src/app/api/apps/tabungan/stats/route.ts:36-40 | Summing the records of one type equals adding the amount of each record of that type, record by record. |
| Stats.TotalsAreTypeSums | src/app/api/apps/tabungan/stats/route.ts:36-42 | For any list, the income, expense and savings totals are the record-by-record totals of their own type (zero for the empty list), and the balance is income minus expenses minus savings. |
| Stats.NonZeroKeepsSum | src/app/api/apps/tabungan/stats/route.ts:100-101 | Dropping zero entries does not change the breakdown's sum when no amount is negative. |
| Stats.AddCategory | src/app/api/apps/tabungan/stats/route.ts:46-72 | The sum over a set of categories grows by a new category's own sum. |
| Stats.CategoryTotalsAsOneSum | src/app/api/apps/tabungan/stats/route.ts:46-72 | For distinct ids, the per-category amounts add up to the sum over the union of those categories. |
| Stats.CategoriesWithinTotal | src/app/api/apps/tabungan/stats/route.ts:36-72 | Any set of categories sums to between zero and the total of that type. |
| Stats.CategoryBreakdownWithinTotal | src/app/api/apps/tabungan/stats/route.ts:36-105 | The savings and expense breakdowns of the report add up to at most the savings and expense totals. |
| Stats.BreakdownEntries | src/app/api/apps/tabungan/stats/route.ts:46-72 | A category appears in the breakdown with its own sum exactly when that sum is positive. |
| GoldPrice.Round | src/app/api/apps/tabungan/gold-price/route.ts:67 | The rounded value is within half a unit, halves rounding up. |
| GoldPrice.RateOf | src/app/api/apps/tabungan/gold-price/route.ts:46 | The reply's rate is used when truthy; otherwise 15500. |
| GoldPrice.PerGram | src/app/api/apps/tabungan/gold-price/route.ts:49 | The price per gram times the grams in a troy ounce is the ounce price times the rate. |
| GoldPrice.PrimaryTier | src/app/api/apps/tabungan/gold-price/route.ts:27-54 | A price exists exactly when both fetches succeed. It is the spot price converted at the effective rate. |
| GoldPrice.EstimateTier | src/app/api/apps/tabungan/gold-price/route.ts:58-71 | The estimate is a whole number between 1140000 and 1160000. |
| GoldPrice.Respond | src/app/api/apps/tabungan/gold-price/route.ts:8-105 | On a miss without failure the cache becomes the served price at the current time. On a fresh hit or a failure the cache is unchanged, and exactly then the answer is marked cached. |
| GoldPrice.FreshCacheIsServed | src/app/api/apps/tabungan/gold-price/route.ts:11-18 | An entry younger than five minutes is served with its own price and timestamp, marked cached, and not rewritten. |
| GoldPrice.PrimaryTierWins | src/app/api/apps/tabungan/gold-price/route.ts:27-54 | On a miss, when both fetches succeed and the converted spot price is non-zero, that price is served and written to the cache, and the estimate tier is not consulted. The response still carries the estimate note, as every miss does. |
| GoldPrice.EstimateWhenPrimaryFails | src/app/api/apps/tabungan/gold-price/route.ts:58-76 | Otherwise the estimate is served, marked estimated. It lies in 1140000..1160000, so the fixed default is never reached on a miss. |
| GoldPrice.FailureServesLastQuote | src/app/api/apps/tabungan/gold-price/route.ts:91-103 | An escaping failure serves the cached price, or 1150000 when there is none or it is zero. It is marked as an error and writes nothing. |
| GoldPrice.PriceIsPositive | src/app/api/apps/tabungan/gold-price/route.ts:8-105 | With non-negative inputs and a positive cached price, the served price is always positive. |
| GoldPrice.MissThenHit | src/app/api/apps/tabungan/gold-price/route.ts:11-18 | After a miss at t0, any request before t0 plus five minutes is served that same price from the cache. |
| GoldPrice.GoldPriceCache.constructor | src/app/api/apps/tabungan/gold-price/route.ts:4-5 | The cache starts empty. |
| GoldPrice.GoldPriceCache.Get | src/app/api/apps/tabungan/gold-price/route.ts:8-105 | The tier-by-tier handler returns the response and leaves the cache exactly as the specification function does. |
| RupiahInput.DigitsOf | src/components/dialogs/AddTransactionDialog.tsx:38 | Removing non-digits leaves only digits and never lengthens the text. |
| RupiahInput.InsertSeparators | src/components/dialogs/AddTransactionDialog.tsx:39 | Separators only lengthen the text, and empty stays empty. |
| RupiahInput.Format | src/components/dialogs/AddTransactionDialog.tsx:36-40 | The field is empty exactly when the typed text holds no digit, and it is never shorter than the digits typed. |
| RupiahInput.Parse | src/components/dialogs/AddTransactionDialog.tsx:43-45 | The parsed text has no dot and is no longer than the input. |
| RupiahInput.FormatAlphabet | src/components/dialogs/AddTransactionDialog.tsx:37-40 | The formatted field holds only digits and dots. |
| RupiahInput.ParseSeparators | src/components/dialogs/AddTransactionDialog.tsx:39-45 | Removing the dots undoes the separators. |
| RupiahInput.DigitsOfSeparators | src/components/dialogs/AddTransactionDialog.tsx:37-40 | Removing non-digits from grouped digits undoes the grouping. |
| RupiahInput.ParseFormat | src/components/dialogs/AddTransactionDialog.tsx:37-45 | Parsing the formatted field gives exactly the digits typed, in order. |
| RupiahInput.FormatIdempotent | src/components/dialogs/AddTransactionDialog.tsx:37-40 | Formatting a formatted field changes nothing. |
| RupiahInput.SeparatorsSplit | src/components/dialogs/AddTransactionDialog.tsx:39 | Splitting the digits before a multiple of three digits splits the output at a dot. |
| RupiahInput.SeparatorsAreGroups | src/components/dialogs/AddTransactionDialog.tsx:39 | The lookahead replacement equals grouping by three from the right. |
| RupiahInput.GroupsAreWellGrouped | src/components/dialogs/AddTransactionDialog.tsx:39 | Grouping non-empty digits gives a first group of one to three digits followed by dot-led groups of three. |
| RupiahInput.FormatIsGrouped | src/components/dialogs/AddTransactionDialog.tsx:37-40 | The field is empty or well grouped, beginning and ending with a digit. |
| RupiahInput.WellGroupedIsFormatted | src/components/dialogs/AddTransactionDialog.tsx:37-40 | Conversely, every well-grouped text is already formatted. |
| RupiahInput.NatToString | src/views/apps/tabungan/transactions/TransactionListTable.tsx:187 | A natural's decimal text is non-empty, all digits and has no leading zero. |
| RupiahInput.IntToString | src/views/apps/tabungan/transactions/TransactionListTable.tsx:187 | A negative amount's text is a minus followed by its magnitude's digits. |
| RupiahInput.DecimalOfNatToString | src/views/apps/tabungan/transactions/TransactionListTable.tsx:187 | Reading back a natural's decimal text gives the natural. |
| RupiahInput.AmountRoundTrip | src/views/apps/tabungan/transactions/TransactionListTable.tsx:97-107 | A stored amount put into the field and submitted unchanged comes back as its magnitude. |
| TransactionForm.Blank | src/components/dialogs/AddTransactionDialog.tsx:49-59 | The opened form is an income dated today, and its submit button is disabled. |
| TransactionForm.WithType | src/components/dialogs/AddTransactionDialog.tsx:182-191 | Changing the type clears both categories and both accounts and keeps every other field. |
| TransactionForm.SubmitBody | src/components/dialogs/AddTransactionDialog.tsx:113-116 | The posted body is the form with only the amount replaced by its dot-free text. |
| TransactionForm.ToInput | src/app/api/apps/tabungan/transactions/route.ts:70-71 | The route can read the body exactly when its amount is a non-empty digit string. It then gets that number, the type, the date and both account ids. |
| TransactionForm.TypeChangeDisablesSubmit | src/components/dialogs/AddTransactionDialog.tsx:182-191 | After choosing any of the four types the form cannot be submitted until its accounts are chosen again. |
| TransactionForm.EnabledIffComplete | src/components/dialogs/AddTransactionDialog.tsx:395-401 | Submit is enabled iff not loading, an amount is entered, and every account the type needs is chosen. |
| TransactionForm.SubmitDisabled | src/components/dialogs/AddTransactionDialog.tsx:395-401 | The button is disabled while loading, without an amount, or when an account the type needs is not chosen. EnabledIffComplete states its converse. |
| TransactionForm.EnabledSubmitReachesEveryLeg | src/components/dialogs/AddTransactionDialog.tsx:110-137 | A form that can be submitted posts a readable amount and is never a one-account transfer. The route moves money through exactly the accounts chosen for its type. |
| TransactionForm.SubmittedAmount | src/components/dialogs/AddTransactionDialog.tsx:113-116 | The posted amount is the digits of the field, and is empty only when the field is. |
| TransactionForm.AddTransactionDialog.constructor | src/components/dialogs/AddTransactionDialog.tsx:96-106 | Opening the dialog resets the form to the blank form, not loading. |
| TransactionForm.AddTransactionDialog.ChangeType | src/components/dialogs/AddTransactionDialog.tsx:182-191 | The type select stores the type-changed form and keeps the amount formatted. |
| TransactionForm.AddTransactionDialog.ChangeAmount | src/components/dialogs/AddTransactionDialog.tsx:206 | Typing stores the formatted text and keeps every other field. |
| TransactionForm.AddTransactionDialog.Submit | src/components/dialogs/AddTransactionDialog.tsx:110-137 | Submitting posts the body with a non-empty digit amount, leaves the form as it was and clears loading. |
| TransactionList.Filter | src/views/apps/tabungan/transactions/TransactionListTable.tsx:258-272 | The filter keeps exactly the elements meeting the condition and never lengthens the list. |
| TransactionList.FilteredData | src/views/apps/tabungan/transactions/TransactionListTable.tsx:254-275 | `filteredData` is no longer than the fetched rows, and every row in it is a fetched row of the chosen type. |
| TransactionList.FilterFilter | src/views/apps/tabungan/transactions/TransactionListTable.tsx:254-275 | Two filters in a row are one filter on the conjunction. |
| TransactionList.FilterAppend | src/views/apps/tabungan/transactions/TransactionListTable.tsx:258-272 | Filtering distributes over concatenation. |
| TransactionList.FilterAll | src/views/apps/tabungan/transactions/TransactionListTable.tsx:263-271 | A filter every element passes returns the list unchanged. |
| TransactionList.FilterIsSubsequence | src/views/apps/tabungan/transactions/TransactionListTable.tsx:258-272 | A filter's result is an order-preserving selection. |
| TransactionList.FilterCongruent | src/views/apps/tabungan/transactions/TransactionListTable.tsx:258-272 | Filters with agreeing conditions give the same list. |
| TransactionList.FilteredIsKeep | src/views/apps/tabungan/transactions/TransactionListTable.tsx:254-275 | `filteredData` is exactly the rows meeting the single combined type-and-category condition, in order. |
| TransactionList.FilteredIsSubsequence | src/views/apps/tabungan/transactions/TransactionListTable.tsx:254-275 | `filteredData` keeps the fetched order. |
| TransactionList.FilterCases | src/views/apps/tabungan/transactions/TransactionListTable.tsx:254-275 | Without a type filter `filteredData` holds every row. Under any other type than savings or expense, the category filter is ignored. A row is in `filteredData` iff it matches the type and, under savings or expense, the category. |
| TransactionList.Options | src/views/apps/tabungan/transactions/TransactionListTable.tsx:285-288 | One option per category, with its id and name, in order. |
| TransactionList.CategoryOptions | src/views/apps/tabungan/transactions/TransactionListTable.tsx:283-290 | Under a savings filter the options are the savings categories, under an expense filter the expense categories, each with its id and name and in order; under any other filter there are none. |
| TransactionList.OptionsMatchFilter | src/views/apps/tabungan/transactions/TransactionListTable.tsx:254-290 | Options exist only under a savings or expense filter. Choosing one shows exactly the rows of that type whose category is the option. |
| TransactionList.SignAndColour | src/views/apps/tabungan/transactions/TransactionListTable.tsx:312-321 | The sign is `+` exactly in the success colour (income). The error colour always carries `-`, and a transfer is shown as `-` in the info colour. |
| TransactionList.AmountSign | src/views/apps/tabungan/transactions/TransactionListTable.tsx:321 | The amount is drawn with `+` for income and `-` for every other type; SignAndColour relates it to the colour. |
| TransactionList.AmountColour | src/views/apps/tabungan/transactions/TransactionListTable.tsx:312-318 | Income is drawn in the success colour, expense in the error colour, and anything else in the info colour; SignAndColour relates it to the sign. |
| TransactionList.OrEmpty | src/views/apps/tabungan/transactions/TransactionListTable.tsx:188-194 | A missing value becomes the empty string; a present one is kept. |
| TransactionList.EditPrefill | src/views/apps/tabungan/transactions/TransactionListTable.tsx:185-195 | The edit form holds the formatted amount, the row's type and the date text, with missing references as empty strings. |
| TransactionList.UnchangedEditKeepsRecord | src/views/apps/tabungan/transactions/TransactionListTable.tsx:185-195 | Saving an opened record unchanged writes it back identical except for the date, which becomes the parsed date text. |
| TransactionList.UnchangedEditKeepsBalances | src/views/apps/tabungan/transactions/TransactionListTable.tsx:185-195 | Saving an opened record unchanged leaves every balance as it was when nothing clamps. |
| StorageSummary.DisplayValue | src/components/dialogs/StorageTransactionsDialog.tsx:97-98 | A gold account with a non-zero weight and a positive price shows its weight times the price, which is positive for a positive weight. Every other account, and a gold account with no weight, a zero weight or no positive price, shows its balance or zero. |
| StorageSummary.FetchedGoldPrice | src/components/dialogs/StorageTransactionsDialog.tsx:62-69 | The dialog holds the served price when it is non-zero, and 0 when the fetch failed. |
| StorageSummary.GoldAccountShowsServedWorth | src/components/dialogs/StorageTransactionsDialog.tsx:49-98 | A gold account with a non-zero weight is shown at its weight times the price the gold route serves, for every route outcome; only a failed fetch shows its balance. |
| StorageSummary.IsIncoming | src/components/dialogs/StorageTransactionsDialog.tsx:101-103 | A row is money in when it is an income or a transfer into this account; Incoming and TotalInIsPlusRows state its use. |
| StorageSummary.IsOutgoing | src/components/dialogs/StorageTransactionsDialog.tsx:105-109 | A row is money out when it is an expense, savings, or a transfer out of this account; Outgoing states its use. |
| StorageSummary.Incoming | src/components/dialogs/StorageTransactionsDialog.tsx:101-103 | The incoming rows are exactly the income rows and the transfers into this account. |
| StorageSummary.Outgoing | src/components/dialogs/StorageTransactionsDialog.tsx:105-109 | The outgoing rows are exactly expenses, savings and transfers out of this account. |
| StorageSummary.TotalIn | src/components/dialogs/StorageTransactionsDialog.tsx:101-103 | The summed amounts of the incoming rows; TotalInIsPlusRows and NetShownIsAccountChange state what it equals. |
| StorageSummary.TotalOut | src/components/dialogs/StorageTransactionsDialog.tsx:105-109 | The summed amounts of the outgoing rows; NetShownIsAccountChange states what money in minus it equals. |
| StorageSummary.TotalInIsPlusRows | src/components/dialogs/StorageTransactionsDialog.tsx:101-103 | The money-in total is the sum of the rows drawn with `+`. |
| StorageSummary.ForeignTransferCountsNowhere | src/components/dialogs/StorageTransactionsDialog.tsx:101-109 | A transfer between two other accounts changes neither total. |
| StorageSummary.IncomingAppend | src/components/dialogs/StorageTransactionsDialog.tsx:101-103 | The incoming filter distributes over concatenation. |
| StorageSummary.OutgoingAppend | src/components/dialogs/StorageTransactionsDialog.tsx:105-109 | The outgoing filter distributes over concatenation. |
| StorageSummary.AccountRowsNameAccount | src/components/dialogs/StorageTransactionsDialog.tsx:77 | The dialog lists exactly the ledger records naming the account as source or destination. |
| StorageSummary.AccountRows | src/components/dialogs/StorageTransactionsDialog.tsx:77 | The dialog's rows are newest first and all come from the ledger. |
| Common.SumAmountsAppend | src/components/dialogs/StorageTransactionsDialog.tsx:101-109 | The sum of two lists one after the other is the sum of each. |
| StorageSummary.NetShownIsAccountChange | src/components/dialogs/StorageTransactionsDialog.tsx:101-109 | When every row moves money through the account, money in minus money out equals the unclamped change those rows made to its balance. |
| StorageSummary.IncomeFromThisAccountIsMisread | src/components/dialogs/StorageTransactionsDialog.tsx:101-103 | Concrete case: an income naming the account only as its source is listed and counted as money in, yet never changed the account. |
| BudgetProgress.HexFollowsColour | src/components/dialogs/ExpenseCategoryTransactionsDialog.tsx:52-62 | The hex colour is the theme colour of the band. Green is below 50 and red from 100. |
| BudgetProgress.ColourOf | src/components/dialogs/ExpenseCategoryTransactionsDialog.tsx:52-56 | The band is success below 50, warning below 100 and error from 100; HexFollowsColour states the bands. |
| BudgetProgress.HexOf | src/components/dialogs/ExpenseCategoryTransactionsDialog.tsx:58-62 | The hex colour of each band; HexFollowsColour ties it to the theme colour. |
| BudgetProgress.Progress | src/components/dialogs/ExpenseCategoryTransactionsDialog.tsx:108 | Progress never exceeds 100 and is 0 without a budget. With a positive budget it is the amount as a percentage of the budget while under it, and exactly 100 once the budget is used up. |
| BudgetProgress.ShareBounds | src/components/dialogs/ExpenseCategoryTransactionsDialog.tsx:108 | The percentage reaches 100 iff the budget is used up, and 50 iff half of it is. |
| BudgetProgress.ErrorIffBudgetUsed | src/components/dialogs/ExpenseCategoryTransactionsDialog.tsx:52-56 | With a positive budget the bar is red exactly when the amount reaches the budget. |
| BudgetProgress.WarningIffHalfUsed | src/components/dialogs/ExpenseCategoryTransactionsDialog.tsx:52-56 | With a positive budget the bar is amber exactly from half the budget until it is used up. |
| BudgetProgress.IsOverBudget | src/components/dialogs/ExpenseCategoryTransactionsDialog.tsx:109 | A category is over budget when it has a budget and its amount exceeds it; OverBudgetIsFull states what the bar then shows. |
| BudgetProgress.OverBudgetIsFull | src/components/dialogs/ExpenseCategoryTransactionsDialog.tsx:108-110 | An over-budget category shows a full red bar. |
| BudgetProgress.CaptionsExclusive | src/components/dialogs/ExpenseCategoryTransactionsDialog.tsx:206-215 | The remaining and excess captions never show together. With a budget one of them shows unless the amount equals the budget. |
| BudgetProgress.ShowsRemaining | src/components/dialogs/ExpenseCategoryTransactionsDialog.tsx:206-215 | The remaining caption shows with a budget the amount has not reached; CaptionsExclusive relates it to the excess caption. |
| BudgetProgress.ShowsExcess | src/components/dialogs/ExpenseCategoryTransactionsDialog.tsx:206-215 | The excess caption shows with a budget the amount exceeds; CaptionsExclusive relates it to the remaining caption. |
| BudgetProgress.CategoryName | src/components/dialogs/ExpenseCategoryTransactionsDialog.tsx:89 | A row has a category name exactly when it has an expense category present in the table. |
| BudgetProgress.NamedCategoryRows | src/components/dialogs/ExpenseCategoryTransactionsDialog.tsx:88-90 | Exactly the rows whose category carries the name are kept. |
| BudgetProgress.DialogRows | src/components/dialogs/ExpenseCategoryTransactionsDialog.tsx:80-92 | Every row shown is a ledger expense whose category carries the name. |
| BudgetProgress.DialogRowsExact | src/components/dialogs/ExpenseCategoryTransactionsDialog.tsx:80-92 | The dialog shows exactly the period's expenses whose category has that name, so same-named categories are merged. |

## Left out

- Persistence, HTTP and JSON: the database client, request parsing, response objects and status plumbing are not modelled. The ledger and balances are in-memory values, and a response is a `Result`.
- Concurrency: each handler runs atomically here. The source's read-then-write balance update can lose a concurrent update; that is not captured.
- Time, randomness and the network: the current time, `Math.random()`, the spot-price fetch and the exchange-rate fetch are parameters. The gold route's failure to reach a fetch is an `Option` or `ExchangeFailed` value.
- `GoldPrice.Respond`: an exception escaping the handler is modelled only before the cache is written (the `outerFailure` flag). A failure after the write is not considered.
- Floating point: amounts are exact integers of Rupiah, and the gold price is an exact real. Binary rounding and NaN are not modelled, except that an empty amount reads as nothing.
- `TransactionForm.ToInput`: `parseFloat` is modelled only on digit strings, the only amounts the form sends. Other text is treated as unreadable.
- Date parsing and formatting: `new Date(...)`, `toISOString()` and locale formatting are not modelled. The date text shown in the edit form and the date it parses back to are parameters.
- The second copy of the amount formatter and parser in src/views/apps/tabungan/transactions/TransactionListTable.tsx:95-107 is identical to the dialog's and is modelled once.
- Form field setters other than the type select and the amount field (description, date, member, category and account selects) only store what is chosen. They are not modelled separately.
- The table's global fuzzy search, column sorting and ten-row pagination in src/views/apps/tabungan/transactions/TransactionListTable.tsx:388-400 are not modelled; `filteredData` is the table's input, not the rows on screen.
- The list table's submit and delete handlers only issue the requests modelled by `Reconciler.Store`, then refetch.
- The reference-data fetches (members, categories, accounts) and loading spinners are not modelled. The category and member tables are parameters.
- Labels, icons, currency formatting (`formatCurrency`) and the `typeConfig` lookups are presentation only.
- The other CRUD routes (storage types, categories, family members) are not part of this model.

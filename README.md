# Flowly core in Dafny

Flowly is a personal-finance app: users record incomes and expenses ("Ingreso" / "Gasto"), keep recurring rules, and read reports and heuristic advice. This project models the parts of it with real logic, and proves properties of them:

- **Offline store** (`offline_store.dfy`): the per-user keys of the local `client_storage`, the cached lists and the pending-write queue. The queue drain is modelled as a loop method with the remote `add_transaction` answers passed in as an oracle.
- **Metrics** (`calculations.dfy`, `finance_ai_api.dfy`): the exact-type totals of the dashboard and reports, and the assistant's summary (case-insensitive prefix match on the type, per-category expenses in insertion order). Also modelled: the purchase tiers, the spending prediction (shares and a budget that cuts the two largest categories by 10%), and the heuristic answers of the quick prompts and the chat.
- **Views**:
  - the add-transaction save, with its checks in order and its queue/cache effects;
  - the transaction list's filters, category options, visible list and delete-by-id;
  - the edit screen's route parsing, form filling, update payloads and no-id guards;
  - the report pie sections and their palette colours;
  - the profile's password change and sign-out.

Shared modules:

- `records.dfy`: the record field map, and a generic filter with its subsequence lemmas.
- `text.dfy`: the Python string operations used.
- `category_totals.dfy`: an insertion-ordered `dict[str, float]` and Python's stable descending sort.
- `client.dfy`: the `client_storage` and `session` stores as classes.

Remote calls, text generation and clocks are parameters. Methods return the request they would send, so "no remote call" is a postcondition.

Behaviours of the code worth noting:

- A failed remote read in the transaction list falls back to the cached list as stored. It is not merged with the pending queue. Locally saved records appear there only because the add view appends them to the cache itself.
- The queue only ever holds transaction creates.
- `summarize_transactions` matches types by lower-cased prefix ("INGRESO", "gastos fijos" count). `calculate_transaction_summary` matches them exactly.
- The docstring of `quick_prompt_response` names a "compra_grande" prompt. The code matches "comprar_algo", so "compra_grande" falls through to the chat fallback.

## Model

| member | source | states |
|---|---|---|
| Records.StampUser | services/firebase_service.py:108-110 | `add_transaction` sets `userId` on the record it is given and changes no other field |
| Records.TextOr | views/add_transaction_view.py:135 | `value or default`: `None` and `""` give the default; any other text is kept |
| Client.ListIn | utils/offline_store.py:16-18 | a list key that is absent reads as `[]` |
| Client.Session.SignedInUser | views/add_transaction_view.py:109-110 | the session user counts only when present and non-empty |
| Text.Lower | services/finance_ai_api.py:51 | `lower()` keeps the length and lowers each ASCII capital |
| Text.Strip | services/finance_ai_api.py:160 | `strip()` returns a slice `s[i..j]` with only whitespace outside it and none at either end of the result |
| Text.LastSegment | views/edit_transaction_view.py:100 | `split("/")[-1]`: a suffix with no "/", preceded by "/" unless it is the whole route |
| Text.RemoveAll | views/edit_transaction_view.py:103 | definition of `replace(p, "")`: occurrences deleted left to right without overlap, never lengthening the text; properties in `RemoveAllWithout`, `RemoveAllKeeps` and `DoubleMarkerRemoved` |
| Text.RemoveAllWithout | views/edit_transaction_view.py:103 | `replace(p, "")` leaves a text without `p` unchanged |
| Text.LexLessTotal | views/transactions_view.py:103 | Python string order is total on distinct strings (with irreflexivity and transitivity, a strict order) |
| CategoryTotals.Add | services/finance_ai_api.py:55 | `d[k] = d.get(k, 0.0) + v`: an existing key keeps its place, a new key is appended at the end; the sum of the values grows by `v` |
| CategoryTotals.AddGet | services/finance_ai_api.py:55 | the update keeps the keys distinct, the value under `k` grows by `v`, and every other key's value is unchanged |
| CategoryTotals.SortDesc | services/finance_ai_api.py:94 | the sorted items are a permutation of the dict's items, in non-increasing value order |
| CategoryTotals.TopDominates | services/finance_ai_api.py:94-95 | each of the first `n` sorted items is at least every item outside them |
| CategoryTotals.TopOfTop | services/finance_ai_api.py:196-197 | `sorted[:3][:2] == sorted[:2]` |
| OfflineStore.KeyOf | utils/offline_store.py:8-25 | definition: a storage key is its kind's namespace prefix followed by the user id, at least 18 characters long; properties in `KeysDistinct` |
| OfflineStore.CacheKey | utils/offline_store.py:8-9 | definition of `_cache_key`: "cached_transactions:" followed by the user id; properties in `KeysDistinct` |
| OfflineStore.QueueKey | utils/offline_store.py:12-13 | definition of `_queue_key`: "pending_transactions:" followed by the user id; properties in `KeysDistinct` |
| OfflineStore.RecurringKey | utils/offline_store.py:24-25 | definition of `_recurring_key`: "cached_recurrings:" followed by the user id; properties in `KeysDistinct` |
| OfflineStore.KeysDistinct | utils/offline_store.py:8-25 | distinct (kind, user) pairs never share a storage key |
| OfflineStore.SessionKeysAreNotNamespaced | utils/offline_store.py:8-25 | no list key is one of the session keys "email", "id_token", "user_id", "is_logged_in" |
| OfflineStore.GetCachedTransactions | utils/offline_store.py:16-18 | the stored cache list, or `[]` when nothing is stored |
| OfflineStore.SetCachedTransactions | utils/offline_store.py:21-22 | full overwrite of the cache key; a read afterwards gives exactly the list set |
| OfflineStore.GetCachedRecurrings | utils/offline_store.py:27-29 | the stored recurring list, or `[]` when nothing is stored |
| OfflineStore.SetCachedRecurrings | utils/offline_store.py:31-32 | full overwrite of the recurring key; a read afterwards gives exactly the list set |
| OfflineStore.AddPendingTransaction | utils/offline_store.py:35-38 | the queue becomes the old queue plus the entry at its end; no other key changes |
| OfflineStore.GetPendingTransactions | utils/offline_store.py:41-42 | the stored queue, or `[]` when nothing is stored |
| OfflineStore.ClearPendingTransactions | utils/offline_store.py:45-46 | removes only the queue key, so a read gives `[]` |
| OfflineStore.Drain | utils/offline_store.py:59-74 | definition of the upload loop: each queued record is stamped and sent in order, a success counts as synced, a failure keeps the record and its error; properties in `DrainCounts`, `DrainKeepsOrder`, `DrainRetainsFailed`, `DrainAllAdded` and `DrainAllFailed` |
| OfflineStore.AfterSync | utils/offline_store.py:54-80 | definition of the storage after a sync: unchanged for an empty queue, otherwise the queue key holds the retained records or is removed; properties in `SyncTouchesOnlyQueue`, `SyncLeavesRetained` and `SyncAgainAfterSuccess` |
| OfflineStore.DrainCounts | utils/offline_store.py:63-74 | `synced + len(remaining) == len(queue)`, one error per retained entry, the errors being the failure messages in order |
| OfflineStore.DrainKeepsOrder | utils/offline_store.py:63-74 | the retained entries are an order-preserving subsequence of the (owner-stamped) queue |
| OfflineStore.DrainRetainsFailed | utils/offline_store.py:64-74 | an entry is retained exactly when its own remote call failed |
| OfflineStore.DrainAllAdded | utils/offline_store.py:64-71 | when every call succeeds, all are synced, no errors, nothing retained |
| OfflineStore.DrainAllFailed | utils/offline_store.py:64-74 | when every call fails, nothing is synced and the whole queue is retained in order |
| OfflineStore.SyncTouchesOnlyQueue | utils/offline_store.py:76-80 | a sync changes no key except that user's queue key |
| OfflineStore.SyncLeavesRetained | utils/offline_store.py:76-80 | after a sync the stored queue is exactly the retained entries (`[]` when the key was removed) |
| OfflineStore.SyncAgainAfterSuccess | utils/offline_store.py:54-56 | after an all-success sync the queue is empty, and a second sync reports `{0, []}` and changes nothing |
| OfflineStore.SyncPendingTransactions | utils/offline_store.py:49-82 | an empty queue returns `{0, []}` with no call and no write; otherwise counts and errors are those of the drain, the records sent are the queue in order, and the storage is the old one with the queue key rewritten to the retained entries or removed |
| Calculations.TypeTotalAppend | utils/calculations.py:5-11 | the per-type total of two lists joined is the sum of their totals |
| Calculations.OtherTypeIgnored | utils/calculations.py:6-11 | a record whose type is neither exactly 'Ingreso' nor 'Gasto', or is missing, changes neither total |
| Calculations.CalculateTransactionSummary | utils/calculations.py:1-14 | income and expenses are the exact-type totals, `balance == income - expenses`, and an empty list gives `(0, 0, 0)` |
| FinanceAi.Summarize | services/finance_ai_api.py:42-62 | definition of the summary: incomes and expenses by lower-cased type prefix, per-category expenses, `disposable = incomes - expenses`; properties in `ByCategoryTotals`, `ByCategoryKeys`, `ByCategoryNonNegative` and `AgreesWithCalculations` |
| FinanceAi.SummarizeTransactions | services/finance_ai_api.py:42-62 | the loop computes the incomes, expenses and `by_category` of `Summarize`, and `disposable == incomes - expenses` |
| FinanceAi.ByCategoryTotals | services/finance_ai_api.py:46-55 | `by_category` has distinct keys, its values sum to `expenses`, and each value is the spend recorded under that category |
| FinanceAi.ByCategoryKeys | services/finance_ai_api.py:50-55 | a category is a key exactly when some expense is recorded under it ("General" when it has none) |
| FinanceAi.ByCategoryNonNegative | services/finance_ai_api.py:53-55 | with non-negative amounts every category total is non-negative |
| FinanceAi.AgreesWithCalculations | services/finance_ai_api.py:51-54 | when every type is exactly 'Ingreso' or 'Gasto', incomes and expenses equal the report totals |
| FinanceAi.CaseVariantsCountOnlyHere | services/finance_ai_api.py:51-53 | "INGRESO" and "gastos fijos" count here but not in the report totals |
| FinanceAi.PurchaseTiers | services/finance_ai_api.py:67-70 | the tiers are 5%, 15% and 30% of the disposable amount floored at 0, so `0 <= small <= medium <= large` |
| FinanceAi.PurchaseAdviceFor | services/finance_ai_api.py:65-72 | the advice has the tiers of the disposable amount (5%, 15%, 30%, floored at 0) and the first three items of the descending sort of `by_category`: at most three, drawn from `by_category`, in non-increasing order |
| FinanceAi.PurchaseTopAreLargest | services/finance_ai_api.py:71-72 | a category left out of "Categorías más altas" spent at most as much as each category listed |
| FinanceAi.ChatFallback | services/finance_ai_api.py:137-141 | the chat fallback uses `incomes - expenses` and the same tiers as the purchase advice |
| FinanceAi.ShareBase | services/finance_ai_api.py:91 | the share denominator is 1.0 or the expenses, and at least both |
| FinanceAi.Budget | services/finance_ai_api.py:96 | same keys and order as `by_category`; each value is 90% of the current one when its category is in the reduced set and unchanged otherwise, so a non-negative value lands between 90% and 100% |
| FinanceAi.PredictSpending | services/finance_ai_api.py:83-118 | definition of the numeric part of `predict_spending`: the summary, each category's share of `max(expenses, 1.0)`, and the budget with the top two categories cut by 10%; properties in `DistributionShares`, `DistributionBounds`, `SuggestedBudgetShape` and `SuggestedBudgetTotal` |
| FinanceAi.DistributionShares | services/finance_ai_api.py:91-93 | the distribution keeps `by_category`'s keys and order, and each share is that category's expense divided by `max(expenses, 1.0)` |
| FinanceAi.DistributionBounds | services/finance_ai_api.py:88-93 | with non-negative amounts the shares are non-negative and sum to at most 1, and to exactly 1 when expenses reach 1.0 |
| FinanceAi.ScaledSum | services/finance_ai_api.py:91-92 | the shares `v / d` add up to the total divided by `d` |
| FinanceAi.ShareBounds | services/finance_ai_api.py:91-93 | shares of non-negative totals over `max(total, 1.0)` are non-negative and sum to at most 1 |
| FinanceAi.SuggestedBudgetShape | services/finance_ai_api.py:94-96 | the budget keeps `by_category`'s keys; a category is cut by 10% exactly when it is in the top two; those two dominate every other; at most two are cut |
| FinanceAi.SuggestedBudgetTotal | services/finance_ai_api.py:94-96 | with non-negative amounts the budget total lies between 90% and 100% of expenses |
| FinanceAi.NormalizeKind | services/finance_ai_api.py:160 | the normalised kind has the length of the stripped input and each character is the lower-cased stripped character, so it has no ASCII capital |
| FinanceAi.EstimateCuts | services/finance_ai_api.py:210-219 | one line per category (at most two), 10% off the first and 5% off the second; total saving `v0/10 + v1/20` |
| FinanceAi.PurchaseLimits | services/finance_ai_api.py:227-230 | safe amount is 25% and threshold 60% of the disposable amount floored at 0, so `0 <= safe <= avoid` |
| FinanceAi.QuickPromptResponse | services/finance_ai_api.py:151-250 | the normalised kind selects exactly one heuristic; each answer carries the summary figures, one cut line per top-two category (10% and 5%) with their total saving, the purchase limits of the disposable amount, or a quarter of each suggested budget; an unknown kind gets the chat fallback |
| AddTransactionView.Check | views/add_transaction_view.py:106-135 | a record is accepted exactly when there is a user, the amount parses and is positive, and the description is non-empty; it then carries that amount, description, type, date, timestamp and the chosen category or "Otros"; each failed check gives its own notice |
| AddTransactionView.UserCheckedFirst | views/add_transaction_view.py:109-114 | without a user the answer is "not authenticated", whatever the form holds |
| AddTransactionView.AmountCheckedBeforeDescription | views/add_transaction_view.py:116-131 | a bad amount is reported whatever the description |
| AddTransactionView.SaveEffects | views/add_transaction_view.py:153-173 | in both branches the cache grows by exactly the saved record at its end, with the new id on success and no id on failure; the queue grows by it only on a remote error; no other key changes |
| AddTransactionView.OfflineSaveIsSentLast | views/add_transaction_view.py:153-161 | a record saved offline is the last one the next sync sends, stamped with its user |
| AddTransactionView.AfterSave | views/add_transaction_view.py:150-175 | definition of the storage after a save: on a remote error the stamped record is queued and cached, on success the record with its new id is cached; properties in `SaveEffects` and `OfflineSaveIsSentLast` |
| AddTransactionView.AddTransactionPage.SaveTransaction | views/add_transaction_view.py:106-179 | a rejected form changes nothing and calls nothing; otherwise the stamped record is sent, the storage follows the remote answer, and only success moves to "/dashboard" |
| TransactionsView.FilterEntries | views/transactions_view.py:146-159 | the loop keeps exactly the records passing the type and category tests, as an order-preserving subsequence |
| TransactionsView.WildcardsKeepAll | views/transactions_view.py:148-150 | "Todos" and "Todas" together keep every record, in order |
| TransactionsView.RefilterIsStable | views/transactions_view.py:146-152 | filtering a filtered list again changes nothing |
| TransactionsView.Items | views/transactions_view.py:165-176 | one card per filtered record, or the single placeholder when there is none |
| TransactionsView.InsertSorted | views/transactions_view.py:103 | inserting into a strictly increasing list keeps it strictly increasing and adds exactly the new category |
| TransactionsView.SortedCategories | views/transactions_view.py:103 | a strictly increasing list holding exactly the string categories of the records |
| TransactionsView.SortedUnique | views/transactions_view.py:103 | two strictly increasing lists with the same elements are equal |
| TransactionsView.CategoryOptionsAreSortedSet | views/transactions_view.py:103-117 | the options are the sorted, duplicate-free categories of transactions plus recurrings, or the fixed 11-item list when there are none |
| TransactionsView.SelectedCategory | views/transactions_view.py:119-120 | a selection not in `["Todas"] + categories` becomes "Todas"; any other is kept |
| TransactionsView.WithoutId | views/transactions_view.py:281 | definition of `[t for t in s if t.get("id") != id]`, used for both lists (the recurring list at line 294); properties in `DeleteById` |
| TransactionsView.DeleteById | views/transactions_view.py:281 | removal drops exactly the records with that id and keeps the others in order, each with all its copies |
| TransactionsView.TransactionsPage.ApplyFilters | views/transactions_view.py:143-176 | only the current mode's list is visible; it shows the filtered records of that kind, or the placeholder |
| TransactionsView.TransactionsPage.ResetFilters | views/transactions_view.py:133-141 | both filters return to their wildcards and the lists are redrawn |
| TransactionsView.TransactionsPage.SetMode | views/transactions_view.py:299-303 | the mode changes and the lists are redrawn for it |
| TransactionsView.TransactionsPage.LoadTransactions | views/transactions_view.py:83-122 | without a user nothing changes, neither storage nor lists nor displayed items; a successful read replaces both lists and caches only the transactions; a failed one reads both caches; then options, selection and lists are refreshed |
| TransactionsView.TransactionsPage.DeleteTransaction | views/transactions_view.py:276-287 | a missing or empty id does nothing; otherwise the delete is sent, the records with that id go, and the signed-in user's cache is overwritten with the rest |
| TransactionsView.TransactionsPage.DeleteRecurring | views/transactions_view.py:289-297 | a missing or empty id does nothing; otherwise the delete is sent and the rules with that id go |
| EditTransactionView.ParseRoute | views/edit_transaction_view.py:100-103 | the id is the last route segment; it is recurring exactly when that segment starts with "rec:", and then every "rec:" is removed |
| EditTransactionView.RemoveAllKeeps | views/edit_transaction_view.py:103 | removing "rec:" never introduces a "/" into the id |
| EditTransactionView.RecurringRouteId | views/edit_transaction_view.py:100-103 | ".../rec:ID" gives the recurring id `ID` when `ID` contains no further "rec:" |
| EditTransactionView.LastSegmentOfSuffix | views/edit_transaction_view.py:100 | the last segment after a "/" is what follows it |
| EditTransactionView.DoubleMarkerRemoved | views/edit_transaction_view.py:103 | "rec:rec:x" names the recurring id "x": `replace`, not a prefix strip |
| EditTransactionView.Filled | views/edit_transaction_view.py:113-130 | the form takes the record's description and other fields, with defaults type "Gasto" (recurring) / "Ingreso" (transaction), category "Otros", frequency "Mensual", date "" |
| EditTransactionView.BuildUpdate | views/edit_transaction_view.py:147-164 | the update carries the form's description, type and amount; the recurring update has the chosen frequency (or "Mensual") and start date, the transaction update a date and no frequency; category defaults to "Otros", frequency to "Mensual", a blank amount to 0.0; an unparsable amount raises |
| EditTransactionView.SaveAfterLoad | views/edit_transaction_view.py:113-164 | saving a freshly loaded form sends back the record's amount, description and category |
| EditTransactionView.EditTransactionPage.DidMount | views/edit_transaction_view.py:99-105 | sets the id from the route; a "rec:" route also marks it recurring and shows the frequency |
| EditTransactionView.EditTransactionPage.LoadTransactionData | views/edit_transaction_view.py:108-133 | no read without an id; a found record fills the form; a missing one redirects to "/dashboard" |
| EditTransactionView.EditTransactionPage.SaveTransaction | views/edit_transaction_view.py:143-166 | no id: no call and no navigation; a raising amount stops before the call; otherwise the update of the right kind is sent and the screen goes to "/dashboard" |
| EditTransactionView.EditTransactionPage.DeleteTransaction | views/edit_transaction_view.py:168-176 | no id: nothing; otherwise the delete of the right kind is sent and the screen goes to "/dashboard" |
| ReportsView.KeysSeparate | views/reports_view.py:118-123 | "Gasto - c" and "Ingreso - c'" never coincide, and a key fixes its category |
| ReportsView.PieTotals | views/reports_view.py:112-123 | definition of `category_data`: "Gasto - c" and "Ingreso - c" totals in first-seen order, other types skipped; properties in `PieSum`, `PieValues` and `OtherTypesNotCharted` |
| ReportsView.PieSum | views/reports_view.py:111-123 | the section values sum to the income total plus the expense total of `calculate_transaction_summary` |
| ReportsView.PieValues | views/reports_view.py:113-123 | one entry per distinct key; the value under "Gasto - c" / "Ingreso - c" is the total of exactly those records ("Sin Categoría" when absent) |
| ReportsView.OtherTypesNotCharted | views/reports_view.py:118-123 | a record of any other type adds no section and no value |
| ReportsView.ColorCycle | views/reports_view.py:127-139 | colours repeat every fifteen sections and differ within any fifteen consecutive ones |
| ReportsView.CreatePieChartData | views/reports_view.py:111-144 | one section per dictionary item, in first-seen order, with its value and palette colour `i % 15` |
| ProfileView.FieldText | views/profile_view.py:85-86 | a `None` field reads as "" |
| ProfileView.CheckPassword | views/profile_view.py:84-103 | a change is requested exactly when the password has at least 6 characters, equals the confirmation and a non-empty token is stored; a long, matching password without a token is refused for the missing session |
| ProfileView.LengthCheckedFirst | views/profile_view.py:85-91 | a short (or `None`) password is refused whatever the confirmation and token |
| ProfileView.MismatchBeforeSession | views/profile_view.py:92-96 | a mismatch is refused whatever the token |
| ProfileView.LogoutKeepsOfflineData | views/profile_view.py:123-130 | sign-out keeps every cached list and pending queue, leaves no token, and so refuses a later password change |
| ProfileView.ProfilePage.OnChangePassword | views/profile_view.py:84-121 | a refused change calls nothing and writes nothing; otherwise (token, password) is sent, an error is shown, and only a success with a non-empty `idToken` replaces the token |
| ProfileView.ProfilePage.OnLogout | views/profile_view.py:123-132 | authenticated becomes false and the user none; `is_logged_in` is set false; "email", "id_token" and "user_id" are removed; the screen goes to "/login" |

## Left out

- Widgets, colours, `page.update()` and the intermediate "Guardando…" / "Actualizando…" messages are left out: they are presentation only. Navigation appears only as a returned route.
- Firestore, the auth REST calls and the text generator are left out. Their answers are oracle parameters.
- `get_recurring_by_id`, `update_recurring`, `delete_recurring`, `get_user_recurrings` and `change_password` are not part of this model beyond those parameters.
- All AI-text branches of services/finance_ai_api.py are left out. Only the branches where the generator returns nothing are modelled, and the advice and answer texts (with their `:.2f` formatting) are not.
- Amounts are `real`: there is no float rounding, NaN or infinity. For example, `float("nan")` passes the add view's `amount <= 0` check in the source.
- The text of an amount field is abstracted to blank, numeric or unparsable.
- Field values that are present but `None` or not strings are not modelled. Examples are a `None` type, which makes `.lower()` raise, and a `None` category, which becomes the key "None". The record type only distinguishes an absent key from a present string.
- Text.Lower: lowers ASCII letters only. Python's `lower()` also folds other Unicode capitals.
- CategoryTotals.SortDesc: stability is built into the definition (an insertion sort that keeps equal values in their order), but it is not stated as a lemma. Only the permutation and the order are proved.
- OfflineStore.SyncPendingTransactions: requires one remote outcome per queued record. This is the shape of the oracle, not a demand of the source.
- FinanceAi.EstimateCuts: requires at most two categories. Its only caller passes `top3[:2]`.
- The sync task started by the transaction list's load (views/transactions_view.py:126) is left out, and so are concurrent drains of the same queue. A sync is one sequential method.
- The `_mounted` and `getattr(self, "page")` guards are left out: the page is assumed present and mounted.
- The profile's e-mail loading in `did_mount`, the date pickers and the card widgets are left out: they are presentation glue around remote reads.
- EditTransactionView.EditTransactionPage.DidMount: never resets `is_recurring`, as in the source. A view reused for a plain route after a recurring one stays recurring.

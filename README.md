# intelli-wealth-ui: the page logic, modelled in Dafny

intelli-wealth-ui is a React client for a personal-finance backend. Almost
every page fetches from a REST service and renders cards. Between the fetch
and the render, each page runs a few small rules, and those rules are what
this project models:

- the subscriptions list, with pagination, an optimistic toggle and a search;
- the assistant chat: reading a reply, grouping the history into sessions,
  rebuilding a transcript, and sending and clearing messages;
- the dashboard aggregation, with its NaN-free number coercion and its
  server-or-list fallbacks;
- the progress, share, score and fill percentages of the goals, budgets,
  net-worth and emergency-fund pages;
- the category-driven forms of the assets, debts and insurance pages;
- the login display-name chain and error selection, and the sidebar's
  groups, initials and logout.

The JavaScript semantics the pages rely on are modelled explicitly, once, in
four library modules:

- `JsValue`: values, truthiness, `||`, property access and `===`.
- `JsNumber`: `Number()`, `parseFloat`, `Math.round`/`Math.min`, `/` and `+`
  with NaN and infinities.
- `JsText`: `trim`, case mapping, `includes`, `replace` and `split`.
- `JsArray`: `filter` that can throw, `slice`, and `Array.isArray`.

A JavaScript object is an ordered list of properties, and spreading
`{...o, [k]: v}` is `Put`. Every network call is an `Outcome`, either
`Fulfilled(response)` or `Rejected(error)`, and is given as a parameter. A
member access that throws on `null` or `undefined` makes the modelled
operation return `None`; the page's `catch` then decides what happens.

Pages whose state the source updates step by step are classes: `SubscriptionsPage`, `ChatSession`, `DashboardPage`,
`GoalsPage`, `BudgetsPage`, `LoginPage` and `SidebarState`, with `FormState` for the form that the assets, debts and
insurance pages share and `Storage` for the browser's local storage.

Their methods take the responses as parameters and state the whole new state.
Pages that only compute a value from their inputs are functions. These are
the emergency-fund, net-worth, debts and insurance loads.

Source paths below are relative to the repository root.

## Model

| member | source | states |
|---|---|---|
| JsValue.Or | src/pages/authentication/Login.jsx:33-37 | `a or b` is the first operand when that is truthy and the second otherwise; the result is truthy iff either operand is |
| JsValue.Get | src/pages/treasury/Goals.jsx:140 | reading a property of anything that is not an object gives undefined |
| JsValue.Access | src/pages/FynixAI.jsx:144 | property access throws exactly on null and undefined; otherwise it reads the property |
| JsValue.Pick | src/pages/FynixAI.jsx:35 | an `or` chain over several fields of one object is truthy iff one of the fields is |
| JsValue.PickIsFirstTruthy | src/pages/FynixAI.jsx:181 | an `or` chain yields the first truthy field, or the last field when none is truthy |
| JsValue.PickAt | src/pages/FynixAI.jsx:187 | when field i is truthy and all earlier ones are falsy, the chain yields field i |
| JsValue.LookupPutSame | src/pages/authentication/Login.jsx:15 | after a spread update `{...o, [k]: v}` the key reads v |
| JsValue.LookupPutOther | src/pages/authentication/Login.jsx:15 | a spread update leaves every other key as it was |
| JsValue.KeysPut | src/pages/treasury/Budgets.jsx:177-180 | a spread update keeps the key order and appends a new key at the end |
| JsValue.PutKeepsUniqueKeys | src/pages/treasury/Budgets.jsx:177-180 | a spread update never duplicates a key |
| JsValue.PutTwice | src/pages/wealth/Assets.jsx:178 | writing one key twice is the same as writing the second value only |
| JsValue.PutSameValue | src/pages/wealth/Assets.jsx:178 | writing the value a key already holds leaves the object unchanged |
| JsValue.LookupAt | src/pages/wealth/Assets.jsx:151-157 | a key whose first occurrence is at position i reads the value stored there |
| JsValue.Keys | src/pages/wealth/Assets.jsx:312 | the key list of an object has one entry per property, in order |
| JsArray.FilterBy | src/pages/treasury/Goals.jsx:139-141 | a filter never yields more items than its input |
| JsArray.FilterByThrows | src/pages/treasury/Subscriptions.jsx:249-252 | a filter throws iff its callback throws on some item |
| JsArray.FilterByMembers | src/pages/treasury/Goals.jsx:139-141 | an item survives a filter iff it is in the input and the callback accepts it |
| JsArray.FilterByAppend | src/pages/Dashboard.jsx:278 | filtering a concatenation is the concatenation of the filtered parts |
| JsArray.FilterBySingle | src/pages/Dashboard.jsx:278 | filtering a single item keeps it, drops it or throws, as the callback says |
| JsArray.FilterBySubsequence | src/pages/treasury/Subscriptions.jsx:249-252 | a filter keeps the input order: its result is a subsequence of the input |
| JsArray.Take | src/pages/Dashboard.jsx:292-295 | `slice(0, n)` is a prefix of length min(n, length) |
| JsArray.ItemsOf | src/pages/Dashboard.jsx:292 | the items of an array value; anything that is not an array gives none |
| JsText.TrimStart | src/pages/FynixAI.jsx:209 | removing leading whitespace leaves a string no longer than the input that starts with a non-space |
| JsText.TrimStartSlice | src/pages/FynixAI.jsx:209 | what `trimStart` keeps is a suffix of the input and what it drops is all whitespace |
| JsText.TrimEnd | src/pages/FynixAI.jsx:209 | removing trailing whitespace leaves a string no longer than the input that ends with a non-space |
| JsText.TrimEndSlice | src/pages/FynixAI.jsx:209 | what `trimEnd` keeps is a prefix of the input and what it drops is all whitespace |
| JsText.Trim | src/pages/FynixAI.jsx:209 | a trimmed string is no longer than the input and neither starts nor ends with whitespace |
| JsText.TrimIsSlice | src/pages/FynixAI.jsx:209 | a trimmed string is a contiguous slice of the input with only whitespace cut on either side |
| JsText.TrimEmptyIffBlank | src/pages/FynixAI.jsx:209-210 | trimming yields "" iff the input is all whitespace |
| JsText.Lower | src/pages/treasury/Goals.jsx:140 | lower-casing keeps the length and maps each character |
| JsText.Upper | src/components/Sidebar.jsx:99 | upper-casing keeps the length and maps each character |
| JsText.LowerIdempotent | src/pages/treasury/Goals.jsx:140 | lower-casing twice is lower-casing once |
| JsText.Includes | src/pages/treasury/Goals.jsx:140 | `includes` holds iff the needle occurs at some position |
| JsText.IndexOf | src/pages/protection/Contingency.jsx:41 | the first occurrence of a character: it is there and not earlier |
| JsText.ReplaceFirst | src/pages/protection/Contingency.jsx:41 | replacing a character changes only its first occurrence, and nothing when it is absent |
| JsText.Before | src/pages/wealth/Debts.jsx:124 | `split(c)[0]` is the longest prefix without c, and c follows it when it is shorter than the input |
| JsText.SpaceBeforeCapitalsRoundTrip | src/pages/wealth/Debts.jsx:301 | inserting a space before each capital loses nothing: removing those spaces gives the key back |
| JsText.SpacedStart | src/pages/wealth/Debts.jsx:301 | after the insertion the text never starts with a capital |
| JsText.SpacedHasSpaceBeforeCapitals | src/pages/wealth/Debts.jsx:301 | after the insertion every capital is preceded by a space |
| JsText.CamelLabel | src/pages/protection/Insurance.jsx:342 | the label is the spaced key with the surrounding whitespace trimmed, so never longer than the spaced key |
| JsNumber.StringToNumber | src/pages/Dashboard.jsx:37 | `Number` of a string is finite or NaN, and 0 for a blank string |
| JsNumber.ToNumber | src/pages/Dashboard.jsx:37 | `Number` keeps numbers, gives NaN for undefined and objects, 0 for null, and infinity only from numbers or arrays |
| JsNumber.ParseFloatText | src/pages/wealth/Assets.jsx:202 | `parseFloat` of text is finite exactly when a decimal prefix follows the leading whitespace, and is then that prefix's value; the infinities come only from spelled-out text |
| JsNumber.ParseFloat | src/pages/wealth/Assets.jsx:202 | `parseFloat` keeps numbers and gives NaN for null, undefined, booleans and objects |
| JsNumber.ParseFloatFirstElement | src/pages/wealth/Assets.jsx:202 | an array is read through its first element: empty or null-led arrays give NaN, and a leading number comes back unchanged |
| JsNumber.NatText | src/pages/wealth/Debts.jsx:166 | the decimal text of a natural number is a non-empty string of digits |
| JsNumber.NatTextValue | src/pages/wealth/Debts.jsx:166 | the decimal text of n reads back as n |
| JsNumber.NatTextRoundTrip | src/pages/wealth/Debts.jsx:166 | both `Number` and `parseFloat` read the decimal text of n as n |
| JsNumber.Div | src/pages/treasury/Goals.jsx:45 | division of finite numbers by a non-zero number is exact; NaN spreads |
| JsNumber.Scale | src/pages/treasury/Goals.jsx:45 | multiplying by a positive constant scales finite numbers and keeps NaN and infinities |
| JsNumber.RoundHalfUp | src/pages/treasury/Goals.jsx:45 | `Math.round` of x lies in (x - 0.5, x + 0.5] |
| JsNumber.Round | src/pages/treasury/Goals.jsx:45 | rounding a finite number gives an integer within half a unit; NaN and infinities stay |
| JsNumber.Min | src/pages/treasury/Goals.jsx:45 | `Math.min` is NaN if either side is, else one of the two and no larger than either |
| JsNumber.Add | src/pages/wealth/NetWorth.jsx:111 | adding finite numbers is exact; NaN spreads |
| JsNumber.Plus | src/pages/wealth/NetWorth.jsx:111 | `+` adds two numbers; with a string, array or object operand it is not a numeric sum |
| Dashboard.SafeNumber | src/pages/Dashboard.jsx:36-39 | the coerced number is never NaN: a finite `Number(v)` is kept and everything else reads 0 |
| Dashboard.SafeNumberReadsDigits | src/pages/Dashboard.jsx:36-39 | the decimal text of n is coerced to n |
| Dashboard.Unwrap | src/pages/Dashboard.jsx:47 | `unwrap` gives `res.data` when both are truthy, the response itself when it is truthy and its `data` is not, and `[]` for a falsy response; the result is always truthy |
| Dashboard.GoalBarPercentage | src/pages/Dashboard.jsx:113-119 | the goal bar is a whole percentage of at most 100; it is 100 exactly when current/target·100 reaches 99.5, and below that it is the ratio rounded, within half a unit (a zero target divides by 1) |
| Dashboard.TotalThrows | src/pages/Dashboard.jsx:229-231 | a list total throws iff some item is null or undefined |
| Dashboard.TotalAppend | src/pages/Dashboard.jsx:234-236 | the total of two concatenated lists is the sum of their totals |
| Dashboard.ListTotal | src/pages/Dashboard.jsx:229-236 | a list value that is not an array totals 0 |
| Dashboard.ListValue | src/pages/Dashboard.jsx:201-205 | a list fetch that failed reads as `[]`; every list value is truthy |
| Dashboard.FailedListIsEmptyList | src/pages/Dashboard.jsx:201-205 | a failed list fetch reads exactly like a successful fetch of an empty list |
| Dashboard.ServerNetWorth | src/pages/Dashboard.jsx:239-243 | the server's net worth is `safeNumber` of the unwrapped body's `netWorth` when that field is present, else `safeNumber` of the body itself |
| Dashboard.ServerNetAmount | src/pages/Dashboard.jsx:258-263 | the server's cash flow is `safeNumber` of the unwrapped body's `balance` when present; otherwise a bare number body is taken as it is and anything else gives 0 |
| Dashboard.TypeOf | src/pages/Dashboard.jsx:269 | a transaction type is compared in lower case |
| Dashboard.KindIgnoresCase | src/pages/Dashboard.jsx:269-272 | a transaction counts as income or expense by its type in any letter case |
| Dashboard.KindsDisjoint | src/pages/Dashboard.jsx:268-273 | no transaction counts as both income and expense |
| Dashboard.KeptTotalAdds | src/pages/Dashboard.jsx:268-273 | an element the filter accepts adds its coerced `amount` to the filtered total |
| Dashboard.KeptTotalSkips | src/pages/Dashboard.jsx:268-273 | an element the filter rejects leaves the filtered total unchanged |
| Dashboard.KindTotalAdds | src/pages/Dashboard.jsx:268-273 | a transaction of the kind adds its coerced amount to that kind's total |
| Dashboard.KindTotalSkips | src/pages/Dashboard.jsx:268-273 | a transaction of another kind leaves that kind's total unchanged |
| Dashboard.OtherTypesIgnored | src/pages/Dashboard.jsx:267-275 | a transaction that is neither income nor expense does not change the fallback cash flow |
| Dashboard.AmountTotalSingle | src/pages/Dashboard.jsx:279 | the total of one subscription is its coerced amount |
| Dashboard.ActiveCostDefined | src/pages/Dashboard.jsx:278-279 | once the active filter succeeds, summing the active amounts cannot throw |
| Dashboard.InactiveSubscriptionIgnored | src/pages/Dashboard.jsx:278 | an inactive subscription does not change the active list |
| Dashboard.Aggregate | src/pages/Dashboard.jsx:286-297 | the previews are prefixes of at most 5 transactions, 3 goals, 4 assets and 4 debts, and the active count is at most the number of subscriptions |
| Dashboard.NetWorthFallback | src/pages/Dashboard.jsx:245-248 | when the net-worth call fails, net worth is the asset total minus the debt total |
| Dashboard.GrossAssetsRule | src/pages/Dashboard.jsx:251-255 | gross assets is the asset total, unless that is 0 and net worth is not, when it is net worth plus debts |
| Dashboard.CashFlowFallbackOnlyOnZero | src/pages/Dashboard.jsx:266-275 | the cash flow departs from the server's value only when that value is 0 and the transaction list is non-empty |
| Dashboard.NetWorthFromServer | src/pages/Dashboard.jsx:239-243 | when the net-worth call succeeds, the page shows the server's net worth |
| Dashboard.CashFlowFigure | src/pages/Dashboard.jsx:256-273 | the cash flow is income minus expense over the list when the fallback applies, and the server's figure otherwise |
| Dashboard.GoalFigures | src/pages/Dashboard.jsx:280-283 | completed goals are the server's count; total goals are the server's unless it reports 0, then the length of the goal list |
| Dashboard.SubscriptionFigures | src/pages/Dashboard.jsx:276-278 | the active count and cost are the length and amount total of the subscriptions the `isActive` filter keeps |
| Dashboard.SubscriptionAndGoalFigures | src/pages/Dashboard.jsx:278-291 | the subscription count and cost are those of exactly the active subscriptions; the goal total is the server's count unless that reads 0, else the number of goals |
| Dashboard.FallbackScenarioTotals | src/pages/Dashboard.jsx:229-236 | one asset of 5000 and one debt of 2000 total 5000 and 2000 |
| Dashboard.NetWorthFallbackScenario | src/pages/Dashboard.jsx:238-255 | with the net-worth call failing, those lists give net worth 3000 and gross assets 5000 |
| Dashboard.DashboardPage.constructor | src/pages/Dashboard.jsx:171-184 | the page starts with zero figures, empty previews and the loading flag set |
| Dashboard.DashboardPage.LoadDashboardData | src/pages/Dashboard.jsx:238-305 | a load writes the aggregate, or on a throw keeps the previous data with net worth and cash flow zeroed; loading ends |
| Goals.CalculateProgress | src/pages/treasury/Goals.jsx:43-46 | progress is 0 for a falsy target and never above 100 |
| Goals.ProgressOfAmounts | src/pages/treasury/Goals.jsx:43-46 | for a non-zero target progress is a whole percentage within half a unit of current/target·100 or capped at 100, and a goal shows as completed iff that ratio is at least 99.5 |
| Goals.RoundedCap | src/pages/treasury/Goals.jsx:45 | min(round(x), 100) is whole, within half a unit of x or 100, and reaches 100 iff x is at least 99.5 |
| Goals.ZeroTargetConventions | src/pages/treasury/Goals.jsx:43-44 | a zero target gives progress 0 on this page, while the dashboard's divisor-1 rule would give 100 |
| Goals.SearchKeepsMatches | src/pages/treasury/Goals.jsx:138-142 | the search keeps exactly the goals whose name contains the query, ignoring case |
| Goals.EmptyQueryKeepsNamedGoals | src/pages/treasury/Goals.jsx:138-142 | an empty query keeps every named goal, in order |
| Goals.RemoveById | src/pages/treasury/Goals.jsx:204 | local removal keeps exactly the goals whose id differs from the deleted one |
| Goals.RemoveByIdAppend | src/pages/treasury/Goals.jsx:204 | removal works item by item, so the kept goals stay in order |
| Goals.SubmitPayload | src/pages/treasury/Goals.jsx:177-181 | the payload parses the target, sends the parsed current amount (0 when blank) and copies every other field |
| Goals.GoalsPage.constructor | src/pages/treasury/Goals.jsx:82-104 | the page starts with no goals, zero statistics and no pending delete |
| Goals.GoalsPage.LoadData | src/pages/treasury/Goals.jsx:119-134 | a successful load sets the goal list and the statistics (zero defaults when absent); a failure keeps both, and a null response keeps its own field and those after it |
| Goals.GoalsPage.HandleDelete | src/pages/treasury/Goals.jsx:200-215 | with no pending id nothing changes; a successful delete removes exactly the goals with that id and takes the new statistics, falling back to a reload when the delete or the statistics call fails or returns null, after which the goals and statistics are those the reload gives (the list as it stood before the reload when the reload list is null); the dialog closes |
| Budgets.Addend | src/pages/treasury/Budgets.jsx:129-131 | a missing or falsy amount adds 0; a number adds itself |
| Budgets.BudgetSummary | src/pages/treasury/Budgets.jsx:128-132 | an empty list gives all-zero totals |
| Budgets.SumFromAppend | src/pages/treasury/Budgets.jsx:128-132 | folding over a concatenation is folding over the first part, then the second |
| Budgets.StepPlain | src/pages/treasury/Budgets.jsx:128-132 | one step of the fold on a budget with numeric or missing amounts adds its three amounts to the totals |
| Budgets.SumFromPlain | src/pages/treasury/Budgets.jsx:128-132 | for budgets with numeric amounts, the fold adds each column's sum to the starting totals |
| Budgets.SummaryIsColumnSums | src/pages/treasury/Budgets.jsx:128-132 | for budgets with numeric amounts the summary is the column sums of allocated, spent and remaining |
| Budgets.Percent | src/pages/treasury/Budgets.jsx:297-299 | a budget that does not allocate more than 0 fills 0%, and the fill never exceeds 100 |
| Budgets.PercentOfAmounts | src/pages/treasury/Budgets.jsx:297-299 | with a positive allocation the fill is spent/allocated·100 without rounding, capped at 100, and reaches 100 iff spent is at least allocated |
| Budgets.StatusColor | src/pages/treasury/Budgets.jsx:65-72 | SAFE, WARNING and DANGER get their own class, and every other status the neutral one |
| Budgets.ProgressBarColor | src/pages/treasury/Budgets.jsx:74-81 | the bar follows the same three statuses, with violet for every other |
| Budgets.ColoursAgree | src/pages/treasury/Budgets.jsx:65-81 | two statuses share a text colour iff they share a bar colour |
| Budgets.NewBudgetDefaults | src/pages/treasury/Budgets.jsx:160-170 | a new budget starts with empty title, category, allocation and note, 0 spent, recurring, and the given month bounds |
| Budgets.EditBudgetCopiesFields | src/pages/treasury/Budgets.jsx:146-155 | editing copies every field of the budget, with an empty note when it has none |
| Budgets.BudgetPayloadFields | src/pages/treasury/Budgets.jsx:187-197 | the save payload sends `parseFloat` of both amounts and copies title, category, dates, recurring and note as typed |
| Budgets.SaveUnchangedBudget | src/pages/treasury/Budgets.jsx:146-197 | saving an untouched edit of a budget with numeric amounts sends its amounts and title back unchanged, and its note or '' |
| Budgets.BudgetsPage.constructor | src/pages/treasury/Budgets.jsx:89-114 | the page starts with no budgets, zero totals and no open form |
| Budgets.BudgetsPage.LoadData | src/pages/treasury/Budgets.jsx:120-141 | a successful load sets the list and its summary; a failure or a null response keeps both; loading ends |
| Budgets.BudgetsPage.OpenModal | src/pages/treasury/Budgets.jsx:143-173 | opening the form for a budget copies it, and for none gives the new-budget defaults; the edited budget is the argument, or `null` when none is passed |
| Budgets.BudgetsPage.HandleInputChange | src/pages/treasury/Budgets.jsx:175-181 | an input change sets only the named field, to `checked` for a checkbox and to the value otherwise |
| NetWorth.CalculatePercentage | src/pages/wealth/NetWorth.jsx:32-35 | a share is 0 for a zero or missing total, else round(part/total·100) |
| NetWorth.Shares | src/pages/wealth/NetWorth.jsx:111-113 | both shares are taken against total assets plus total debt, and there are none exactly when that sum would be text; their range and sum are stated by NetWorth.SharesOfAmounts |
| NetWorth.RoundedSharesSum | src/pages/wealth/NetWorth.jsx:112-113 | the two rounded shares of a whole add up to 100 or 101 |
| NetWorth.SharesOfAmounts | src/pages/wealth/NetWorth.jsx:111-113 | for non-negative amounts each share lies in 0..100 and the two add up to 100 or 101 |
| NetWorth.EmptyPortfolioShares | src/pages/wealth/NetWorth.jsx:111-113 | with nothing owned or owed both shares are 0 |
| NetWorth.ShapeValue | src/pages/wealth/NetWorth.jsx:79-80 | an object response is read at the named field, a primitive is used as it is, and null throws |
| NetWorth.Insert | src/pages/wealth/NetWorth.jsx:93 | inserting into a sorted list adds exactly one item |
| NetWorth.InsertSorted | src/pages/wealth/NetWorth.jsx:93 | inserting into a list sorted highest first keeps it sorted |
| NetWorth.SortDesc | src/pages/wealth/NetWorth.jsx:92-93 | the sorted list is a permutation of the input |
| NetWorth.SortDescSorted | src/pages/wealth/NetWorth.jsx:92-93 | the sorted list is in non-increasing order of the sort key |
| NetWorth.TopThreeProperties | src/pages/wealth/NetWorth.jsx:92-100 | the top list keeps min(3, n) items drawn from the input, sorted highest first, and no dropped item ranks above the smallest kept one |
| NetWorth.LoadedTotals | src/pages/wealth/NetWorth.jsx:79-89 | net worth and asset total come from `.netWorth` and `.totalValue` of an object or from the raw value, the debt total from `totalOutstandingAmount`, each defaulting to 0 |
| NetWorth.NullBodyKeepsState | src/pages/wealth/NetWorth.jsx:79-104 | a null net-worth body throws, so the page keeps its previous state |
| NetWorth.Load | src/pages/wealth/NetWorth.jsx:60-108 | a failed call, or a null response to one of the three total calls, keeps the previous state |
| NetWorth.LoadedTopLists | src/pages/wealth/NetWorth.jsx:91-102 | once the totals are set, the top assets and top debts are the three largest of each list; a null list response or a throwing sort keeps that top list, and a throw on the asset list keeps the old top debts too |
| Contingency.HealthScore | src/pages/protection/Contingency.jsx:28-32 | the score is 0 for a falsy runway and never above 100 |
| Contingency.ScoreOfMonths | src/pages/protection/Contingency.jsx:28-32 | for a non-zero runway the score is round(months·100/6), capped at 100 |
| Contingency.ScoreFullAndMonotone | src/pages/protection/Contingency.jsx:28-32 | the score reaches 100 at six months or more and never falls as the runway grows |
| Contingency.HealthColor | src/pages/protection/Contingency.jsx:34-38 | six months or more is healthy, three or more moderate, anything else critical; exactly one applies |
| Contingency.BarMatchesHealthColour | src/pages/protection/Contingency.jsx:226-231 | the bar gradient classifies runways exactly as the text colour does |
| Contingency.HealthLabel | src/pages/protection/Contingency.jsx:40-42 | the label is "UNKNOWN" for a falsy status and otherwise the status with its first underscore turned into a space |
| Contingency.LabelChangesOneCharacter | src/pages/protection/Contingency.jsx:41 | the label differs from the status at the first underscore only |
| Contingency.RunwayBarWidth | src/pages/protection/Contingency.jsx:233 | the bar width never exceeds 100 |
| Contingency.RunwayBarOfMonths | src/pages/protection/Contingency.jsx:233 | the width lies in 0..100, is full iff the runway is twelve months or more, and is half at six |
| Contingency.Load | src/pages/protection/Contingency.jsx:64-80 | a failed fetch, or a null response whose `data` read throws, keeps the previous state |
| Contingency.LoadedFieldsPresent | src/pages/protection/Contingency.jsx:68-76 | after a load each figure is the one the body (`data`, or `{}`) sent, or 0 when it is missing or falsy; the status is the one sent or "NO DATA", so never blank |
| Contingency.FalsyDataShowsNothing | src/pages/protection/Contingency.jsx:68-76 | a response without a truthy `data` shows every figure as 0 and the status "NO DATA" |
| Contingency.EmptyBodyShows | src/pages/protection/Contingency.jsx:68-76 | an empty body shows a zero score, a critical colour, "NO DATA" and a fully funded gap |
| Assets.RuleKeysDistinct | src/pages/wealth/Assets.jsx:30-71 | every category's field list has pairwise-distinct keys |
| Assets.InvestmentKeysDistinct | src/pages/wealth/Assets.jsx:31-52 | the real-estate, equity and mutual-fund field lists have distinct keys |
| Assets.OtherKeysDistinct | src/pages/wealth/Assets.jsx:53-70 | the remaining field lists have distinct keys |
| Assets.MainCategory | src/pages/wealth/Assets.jsx:74-77 | PHYSICAL exactly for REAL_ESTATE, VEHICLE and GOLD, FINANCIAL for everything else |
| Assets.GoldHasNoRules | src/pages/wealth/Assets.jsx:30-77 | GOLD is physical but has no extra fields, while real estate and vehicles have some |
| Assets.PayloadFields | src/pages/wealth/Assets.jsx:198-205 | the payload's main category is always the classification of its category, and the value is parsed |
| Assets.PayloadCopies | src/pages/wealth/Assets.jsx:198-205 | the payload copies the name and acquisition date |
| Assets.EditPrefill | src/pages/wealth/Assets.jsx:151-157 | editing takes the value from `currentValue`, falling back to `value`, and an empty attribute map when absent |
| Assets.EditFormReads | src/pages/wealth/Assets.jsx:151-157 | the edit form reads back the asset's name, category and date, and the value with its fallback |
| Assets.SaveUnchangedEdit | src/pages/wealth/Assets.jsx:151-205 | saving an unedited asset with a non-zero numeric value sends back its own fields |
| CategoryForm.AttributesOf | src/pages/wealth/Assets.jsx:187 | the attribute map of a form, empty when it is not an object |
| CategoryForm.CategoryChangeClearsAttributes | src/pages/wealth/Assets.jsx:175-177 | a category change sets the category, empties the attributes and touches nothing else |
| CategoryForm.OtherChangeTouchesOneField | src/pages/wealth/Assets.jsx:178 | any other change sets only that field |
| CategoryForm.AttributeChangeTouchesOneKey | src/pages/wealth/Assets.jsx:183-191 | an attribute change sets that key, keeps every other attribute and every other field |
| CategoryForm.UpdatesKeepUniqueKeys | src/pages/wealth/Assets.jsx:171-191 | neither kind of change duplicates a field |
| CategoryForm.DateOnly | src/pages/wealth/Debts.jsx:124 | a date is cut before its 'T', blank when absent, and a truthy non-string throws |
| CategoryForm.DateOnlyOfTimestamp | src/pages/protection/Insurance.jsx:141 | cutting a timestamp gives back its date part |
| CategoryForm.Preview | src/pages/protection/Insurance.jsx:339 | the card preview shows the first two attributes at most, in order |
| CategoryForm.PreviewLabels | src/pages/protection/Insurance.jsx:339-342 | each previewed attribute is labelled by its spaced, trimmed key |
| CategoryForm.FormState.constructor | src/pages/wealth/Assets.jsx:147-168 | the form starts from the given fields |
| CategoryForm.FormState.HandleMainChange | src/pages/wealth/Debts.jsx:139-147 | a top-level change sets the named field, and a category change also empties the attributes |
| CategoryForm.FormState.HandleAttributeChange | src/pages/protection/Insurance.jsx:170-178 | an attribute change sets that key and keeps every other attribute |
| Debts.DebtRuleKeysDistinct | src/pages/wealth/Debts.jsx:29-46 | every debt category's field list has distinct keys |
| Debts.EditDueDate | src/pages/wealth/Debts.jsx:124 | editing shows the due date up to its 'T', or "" when there is none |
| Debts.PayloadDueDate | src/pages/wealth/Debts.jsx:163-169 | a blank due date is sent as null and the outstanding amount is parsed |
| Debts.NewFormReads | src/pages/wealth/Debts.jsx:128-134 | a new debt form has a blank due date and holds the amount typed |
| Debts.NewDebtPayload | src/pages/wealth/Debts.jsx:128-169 | a new debt with a typed amount n is sent with amount n and a null due date |
| Debts.Load | src/pages/wealth/Debts.jsx:98-113 | a failed call keeps the state; otherwise the list is the one sent or `[]` and the statistics the ones sent or zero totals, set in that order, with a null response stopping the updates at its own field |
| Insurance.InsuranceRuleKeysDistinct | src/pages/protection/Insurance.jsx:31-55 | every policy category's field list has distinct keys |
| Insurance.ListOrEmpty | src/pages/protection/Insurance.jsx:121 | a list is the response's `data` when truthy and `[]` otherwise |
| Insurance.Load | src/pages/protection/Insurance.jsx:110-128 | a failed call keeps the state; otherwise the lists are set in order, each to its `data` or `[]`, and a null response stops the updates at its own list, keeping that list and the ones after it |
| Insurance.IsExpiring | src/pages/protection/Insurance.jsx:298 | nothing is expiring in an empty list, and a policy flagged expiring shares an id with some listed entry |
| Insurance.IsExpiringIffSameId | src/pages/protection/Insurance.jsx:298 | with no null entries a policy is flagged iff some entry has the same id |
| Insurance.MatchBeforeNull | src/pages/protection/Insurance.jsx:298 | the test stops at the first match, so a null entry after it is harmless and one before it throws |
| Insurance.MissingIdsMatch | src/pages/protection/Insurance.jsx:298 | a policy without an id matches an entry without one, since undefined equals undefined |
| Insurance.RenewalShownAlike | src/pages/protection/Insurance.jsx:141 | the form and the card show the same renewal date, "" and "N/A" when it is absent |
| Insurance.EditPrefill | src/pages/protection/Insurance.jsx:135-144 | editing copies the premium and cover and an empty attribute map when absent |
| Insurance.PayloadFields | src/pages/protection/Insurance.jsx:184-193 | the payload parses premium and cover and copies the renewal date |
| Insurance.NewFormReads | src/pages/protection/Insurance.jsx:146-155 | a new policy form has a blank renewal date and premium |
| Insurance.BlankNewPolicyPayload | src/pages/protection/Insurance.jsx:146-193 | saving a blank new policy sends a NaN premium and an empty renewal date |
| Insurance.BlankReadsAsNaN | src/pages/protection/Insurance.jsx:188 | `parseFloat("")` is NaN |
| Subscriptions.LoadPage | src/pages/treasury/Subscriptions.jsx:146-162 | a nullish response throws; a paged load sets the page and `hasMore` to not `last`; a non-paged one keeps the page, lists the array (or nothing) and clears `hasMore` |
| Subscriptions.FirstPageReplaces | src/pages/treasury/Subscriptions.jsx:150-152 | page 0 replaces the list with exactly its content |
| Subscriptions.LaterPageAppends | src/pages/treasury/Subscriptions.jsx:153-154 | a later page keeps the old items in place and puts its content after them |
| Subscriptions.PagesConcatenate | src/pages/treasury/Subscriptions.jsx:150-157 | loading pages 0..n in turn lists the concatenation of their contents and ends at page n |
| Subscriptions.StatsOf | src/pages/treasury/Subscriptions.jsx:114-126 | the statistics throw only for a nullish response; each figure is truthy or 0, and a truthy figure in the body is shown as sent |
| Subscriptions.StatsReadBodyOrResponse | src/pages/treasury/Subscriptions.jsx:116-124 | all five figures are read from `data` when it is truthy and from the response itself otherwise, each falling back to 0 |
| Subscriptions.Toggled | src/pages/treasury/Subscriptions.jsx:225 | the optimistic update keeps the length and order, maps each item on its own, and throws iff some item is nullish |
| Subscriptions.ToggleItemEffect | src/pages/treasury/Subscriptions.jsx:225 | the item with the id gets `active` negated and every other field kept; the others stay as they are |
| Subscriptions.ToggleItemTwice | src/pages/treasury/Subscriptions.jsx:225 | toggling an item with a boolean flag twice restores it |
| Subscriptions.ToggledTwice | src/pages/treasury/Subscriptions.jsx:225 | toggling a list twice restores it |
| Subscriptions.SubMatchesIff | src/pages/treasury/Subscriptions.jsx:249-251 | when the search callback does not throw, it accepts iff the title or the category contains the query, ignoring case |
| Subscriptions.SubMatchesThrows | src/pages/treasury/Subscriptions.jsx:249-251 | the callback throws on a nullish item and on a non-string title, and a matching title short-circuits the category |
| Subscriptions.SearchKeepsMatches | src/pages/treasury/Subscriptions.jsx:249-252 | the search keeps exactly the matching items, as a subsequence of the loaded list |
| Subscriptions.SubscriptionsPage.constructor | src/pages/treasury/Subscriptions.jsx:64-76 | the page starts empty at page 0 with no more pages and zero statistics |
| Subscriptions.SubscriptionsPage.FetchPageData | src/pages/treasury/Subscriptions.jsx:146-162 | the list state becomes the loaded page when the load succeeds and is kept when it throws |
| Subscriptions.SubscriptionsPage.HandleLoadMore | src/pages/treasury/Subscriptions.jsx:164-174 | nothing is requested while loading or when there are no more pages; otherwise exactly page + 1 is requested and loaded |
| Subscriptions.SubscriptionsPage.FetchDashboardStats | src/pages/treasury/Subscriptions.jsx:114-130 | the statistics are replaced on success and kept on failure |
| Subscriptions.SubscriptionsPage.LoadInitialData | src/pages/treasury/Subscriptions.jsx:131-144 | the statistics and page 0 are each loaded when their call succeeds and kept when it fails or throws, and the load-more flag is untouched |
| Subscriptions.SubscriptionsPage.HandleToggle | src/pages/treasury/Subscriptions.jsx:221-234 | a failed toggle restores the exact snapshot; a successful one keeps the toggled list and refreshes the statistics, which stay as they were when the refresh fails; the paging state is untouched |
| FynixAI.ExtractMessage | src/pages/FynixAI.jsx:24-38 | a falsy reply reads "", text that does not parse is kept as it is, and a number is printed |
| FynixAI.ExtractFromObject | src/pages/FynixAI.jsx:34-35 | an object reply reads as its first truthy `answer`, `query`, `message` or `text`, else as its JSON text |
| FynixAI.ExtractFromJsonText | src/pages/FynixAI.jsx:26-29 | the JSON text of an object reply reads exactly as the object does |
| FynixAI.Reversed | src/pages/FynixAI.jsx:143 | the reversed history holds the same items in reverse order |
| FynixAI.GroupedFrom | src/pages/FynixAI.jsx:143-151 | grouping throws iff some history item is nullish |
| FynixAI.FirstIndex | src/pages/FynixAI.jsx:144 | the position of the first item with a given conversation id |
| FynixAI.GroupedIdsDistinct | src/pages/FynixAI.jsx:139-151 | the sessions have truthy, pairwise-distinct ids not seen before |
| FynixAI.GroupedCovers | src/pages/FynixAI.jsx:143-149 | every truthy conversation id not seen before gets a session |
| FynixAI.GroupedByFirstItem | src/pages/FynixAI.jsx:144-149 | each session takes its title from the first item with its id |
| FynixAI.GroupedInOrder | src/pages/FynixAI.jsx:143-151 | sessions appear in the order their ids first occur |
| FynixAI.SessionsSpec | src/pages/FynixAI.jsx:139-151 | each truthy id of the history is in exactly one session, titled by its most recent item, newest session first |
| FynixAI.GroupSessions | src/pages/FynixAI.jsx:139-151 | the loop with its set of seen ids computes exactly the sessions |
| FynixAI.RecordMessages | src/pages/FynixAI.jsx:180-191 | a record yields at most a user message then an assistant message, only truthy contents, and nothing when it has neither; the question is the first truthy of `query`, `message`, `prompt` and leads, and the answer is the first truthy answer key and comes last |
| FynixAI.Transcript | src/pages/FynixAI.jsx:179-192 | the transcript throws iff some record is nullish, and has at most two messages per record |
| FynixAI.GatherAppend | src/pages/FynixAI.jsx:179-192 | reading records one by one, the messages of two runs of records are those of the first run followed by those of the second |
| FynixAI.TranscriptAppend | src/pages/FynixAI.jsx:179-192 | the transcript of concatenated records is the concatenation of their transcripts |
| FynixAI.TranscriptSingle | src/pages/FynixAI.jsx:179-192 | a single record's transcript is its own messages |
| FynixAI.BuildTranscript | src/pages/FynixAI.jsx:177-192 | the loop computes exactly the transcript |
| FynixAI.Reply | src/pages/FynixAI.jsx:220-235 | the reply is an assistant message: the answer extracted from `data.answer || data` on success, and the fixed error text when the call fails or the response or its `data` is null |
| FynixAI.AdoptedId | src/pages/FynixAI.jsx:221-226 | an active conversation id is kept; with none active, a truthy returned id is adopted, and the id changes only that way |
| FynixAI.ChatSession.constructor | src/pages/FynixAI.jsx:95-104 | the chat starts empty, idle, with no conversation and no sessions |
| FynixAI.ChatSession.SendMessage | src/pages/FynixAI.jsx:208-239 | blank text or a busy chat changes nothing; otherwise the user message and exactly one reply are appended, the input clears, and the history reloads iff an id was adopted |
| FynixAI.ChatSession.ClearChat | src/pages/FynixAI.jsx:241-247 | clearing empties the messages and drops the conversation id |
| FynixAI.ChatSession.LoadApiHistory | src/pages/FynixAI.jsx:132-160 | a successful load sets the sessions grouped from the history; a failure keeps them |
| FynixAI.ChatSession.SelectHistorySession | src/pages/FynixAI.jsx:168-206 | opening a session shows its transcript and adopts its id; a failure keeps the chat |
| Login.And | src/pages/authentication/Login.jsx:34 | `a and b` is truthy iff both are |
| Login.DisplayName | src/pages/authentication/Login.jsx:33-37 | the display name is a truthy candidate or the typed login |
| Login.FirstTruthyIsEarliest | src/pages/authentication/Login.jsx:33-37 | a chain of fallbacks yields its earliest truthy candidate |
| Login.DisplayNameIsFirstTruthy | src/pages/authentication/Login.jsx:33-37 | the name is the first truthy of `user.name`, `name`, `user.username` and `username`, else the typed login |
| Login.ErrorMessage | src/pages/authentication/Login.jsx:49-55 | reading the error throws only for a nullish error; otherwise the server's `response.data.message` is shown when truthy, else the 401 text for a 401 response, else the generic text |
| Login.Submit | src/pages/authentication/Login.jsx:19-59 | sign-in happens iff the response carries a truthy token, with that token and the display name; a refusal always shows a message, which for a failed call is the catch block's ErrorMessage and for a null response or body the generic text |
| Login.RefusalMessages | src/pages/authentication/Login.jsx:43-55 | no token, a bare 401 and a failure without a response each give their fixed message |
| Login.LoginPage.constructor | src/pages/authentication/Login.jsx:7-12 | the form starts blank, idle and without an error |
| Login.LoginPage.HandleChange | src/pages/authentication/Login.jsx:14-17 | editing sets only the named field and clears any error |
| Login.LoginPage.HandleSubmit | src/pages/authentication/Login.jsx:19-59 | a sign-in stores the token and the display name and redirects; otherwise storage is untouched and the error is shown |
| BrowserStorage.Storage.GetItem | src/components/Sidebar.jsx:76 | a missing item reads as null |
| BrowserStorage.Storage.SetItem | src/pages/authentication/Login.jsx:30-39 | setting an item stores that value under the key and nothing else |
| BrowserStorage.Storage.RemoveItem | src/components/Sidebar.jsx:91-92 | removing an item deletes that key only |
| Sidebar.InitialGroups | src/components/Sidebar.jsx:68 | initially exactly Treasury and Wealth are expanded |
| Sidebar.ToggleGroup | src/components/Sidebar.jsx:83-85 | toggling flips the named group, expands a group never seen, and keeps the others |
| Sidebar.ToggleGroupTwice | src/components/Sidebar.jsx:83-85 | toggling a group twice restores what is shown |
| Sidebar.ToggleGroupLocal | src/components/Sidebar.jsx:83-85 | toggling one group never changes another |
| Sidebar.ShownName | src/components/Sidebar.jsx:76-79 | a stored name is shown when truthy; otherwise the current name stays |
| Sidebar.Initials | src/components/Sidebar.jsx:97-100 | a falsy name gives "GU", a string its first two characters upper-cased, and any other value throws |
| Sidebar.GuestInitials | src/components/Sidebar.jsx:69-100 | the guest name gives "GU" |
| Sidebar.SidebarState.constructor | src/components/Sidebar.jsx:67-69 | the sidebar starts closed, with the initial groups and the guest name |
| Sidebar.SidebarState.LoadStoredName | src/components/Sidebar.jsx:74-80 | the stored user name replaces the shown one when truthy |
| Sidebar.SidebarState.Toggle | src/components/Sidebar.jsx:83-85 | a toggle changes the groups only |
| Sidebar.SidebarState.CloseMobile | src/components/Sidebar.jsx:87 | closing hides the mobile menu only |
| Sidebar.SidebarState.HandleLogout | src/components/Sidebar.jsx:89-94 | logout removes the token and the user name and nothing else |
| Sidebar.SessionRoundTrip | src/components/Sidebar.jsx:74-80 | after a sign-in the sidebar shows the display name the login page stored, or the guest name when that is empty |

## Left out

- Rendering, icons, toasts, modals' markup, navigation and window width: the mobile history panel toggle at src/pages/FynixAI.jsx:197-199 and 244-246 is not modelled.
- Transactions, Reports, Register, App and the api service are not part of this model; the backend calls are parameters.
- Dates and the clock: `new Date().toISOString()` and the month bounds of a new budget are given as parameters.
- `JSON.parse`, `JSON.stringify` and `String(number)` are parameters of the chat model; the throw of `JSON.stringify` on a cyclic object is not modelled.
- Promise timing: each handler runs to completion with its responses settled, and intermediate `loading` flags are not observable.
- `Number()` does not read exponents, hexadecimal or "Infinity"; such text reads as NaN.
- JsNumber.ParseFloatText: stops before an exponent, so "1e3" reads as 1 where `parseFloat` gives 1000.
- JsNumber.ParseFloat: inherits the exponent gap of JsNumber.ParseFloatText.
- Numbers are modelled as exact reals: the rounding and overflow of IEEE doubles are not modelled.
- Dashboard.SafeNumber: an infinite number reads as 0, where `isNaN(num) ? 0 : num` keeps Infinity; the totals are modelled as reals, and a JSON body parses to an infinity only from an overflowing literal such as 1e400.
- `+` on strings (concatenation) is not modelled; sums of non-numbers are treated as failures of the numeric rule.
- Case mapping is ASCII only.
- Negative zero is not distinguished from zero.
- Object identity: `===` (JsValue.StrictEquals) treats any two objects or arrays as distinct references, even the same one; `Set.has` in the session grouping compares ids as values, which differs from JavaScript only for ids that are objects.
- The api wrappers resolve to axios response objects, never `null` or `undefined`, so a null response cannot occur; the loaders still follow the page for one, throwing where its `data` is read.
- `localStorage` keeps the values given; its string coercion is not modelled.
- The sort comparator's behaviour on NaN keys is not modelled; keys are ranked with NaN last and the infinities at the ends.
- The loading flag of the chat history and the request body of the sign-in are not modelled; the redirect after sign-in is a flag.
- The save requests of the goals, budgets, assets, debts and insurance forms: only their payloads are modelled.
- Goals.GoalsPage.LoadData: requires the loaded goal list to be an array; the page would store any other value and then fail while rendering.
- Goals.GoalsPage.HandleDelete: requires the reloaded goal list to be an array, for the same reason.
- Budgets.BudgetsPage.LoadData: requires the loaded budget list to be an array, for the same reason.
- Subscriptions.LoadPage: paged content that is not an array is treated as a throw. On page 0 the page would store the value as it is and fail only while rendering; on later pages a string is appended character by character, and only content that is not iterable throws at the spread.
- Subscriptions.Toggled: a list holding null makes the optimistic update throw, and the model then leaves the list as it was; React would surface the updater's error.
- NetWorth.TopThree: an `undefined` element is treated as a throw, whereas `sort` moves undefined elements to the end without calling the comparator.
- Goals.RemoveById: a null goal is kept when the id is not `undefined`, where the filter callback would throw on `g.id`.
- Sidebar.Initials: counts characters, not UTF-16 code units, so a name starting with an astral character is cut differently.
- CategoryForm.AttributesOf: a string or array `attributes` is spread as nothing, where JavaScript would spread its indices; CategoryForm.Preview likewise lists nothing for them, where `Object.entries` would list each index.
- JsValue.Keys: keys keep insertion order; JavaScript lists integer-like keys first in ascending order.
- Dashboard.ListTotal: states only the non-array case; the per-item rule is stated by Dashboard.TotalAppend and Dashboard.TotalThrows.
- Dashboard.Aggregate: its own contract states the previews and the active count; the other figures are stated by Dashboard.NetWorthFallback, Dashboard.NetWorthFromServer, Dashboard.GrossAssetsRule, Dashboard.CashFlowFigure, Dashboard.GoalFigures and Dashboard.SubscriptionFigures.
- The per-transaction cash-flow statement is split into Dashboard.KindTotalAdds and Dashboard.KindTotalSkips.

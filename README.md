# finwise calculators and game rules in Dafny

This project models the computing core of the finwise personal-finance app, a React UI. The core is the handful of calculators and state updates that the components run in their event handlers:

- the EMI loan decoder with its amortization schedule and late fees;
- the loan risk lab;
- the savings simulator and its achievement badges;
- the cashflow mirror;
- the hidden-cost (cost of ownership) visualizer;
- the income and inflation tracker;
- the informal-economy income smoother;
- the budget ledger, with the mock budget service behind it;
- the scheme recommendation rule, the profile built at registration and the city tables;
- the Business Literacy Quest game;
- the scheme carousel, the cursor trail and the coin stack.

Modelling conventions:

- Money is `real`. Counts (months, years, xp, coins, indices) are `int`.
- `Math.pow` is the recursive `FinMath.Pow`. A negative exponent goes through `FinMath.PowInt`.
- Records come from `types.ts` (module `Types`). An optional field becomes an `Option`.
- A TypeScript object keyed by quest id becomes an association list kept in insertion order.
- How each component is modelled follows its source:
  - Components that keep state and change it step by step are classes with `modifies` clauses: the debt-trap decoder, the budget screen, the quest game and the carousel.
  - `MOCK_BUDGET` is an object (`BudgetService.EntryList`), so the model can express that the service hands out its own array.
  - Loops are `while` loops proved against recursive specification functions: the amortization loop, the late-fee loop, the savings loop and the category reduction.
  - Straight-line calculators are functions.
- A handler that rejects its input and keeps the previous result takes that result as a parameter (`prev`) and returns it unchanged.

Modules: `Wrappers`, `Types`, `FinMath`, `Strings`, `DebtTrapDecoder`, `LoanRiskLab`, `SavingsSimulator`, `CashflowMirror`, `HiddenCostVisualizer`, `IncomeInflationTracker`, `InformalPlanner`, `BudgetService`, `BudgetBuilder`, `SchemesService`, `AuthService`, `CityService`, `BusinessLiteracyQuest`, `GovernmentSchemes`, `CursorEffect` and `CoinStack`.

## Model

| member | source | states |
|---|---|---|
| FinMath.EmiTimesGeomSum | components/DebtTrapDecoder.tsx:37-39 | the annuity instalment times 1 + q + … + q^(n-1) equals the principal grown for n months |
| FinMath.EmiRepaysMoreThanPrincipal | components/DebtTrapDecoder.tsx:37-39 | for a positive principal and rate, n instalments repay more than the principal, and one instalment exceeds the first month's interest |
| FinMath.Bernoulli | components/DebtTrapDecoder.tsx:32-34 | (1+x)^n ≥ 1 + n·x for x ≥ -1, used to bound the effective APR |
| FinMath.PowIntStrictlyIncreasing | components/IncomeInflationTracker.tsx:93 | for a base above 1, `Math.pow` with integer exponents (negative ones included) strictly increases |
| DebtTrapDecoder.EffectiveAprAtLeastSimple | components/DebtTrapDecoder.tsx:32-34 | the effective APR `((1+r)^12 - 1)·100` is at least twelve times the monthly percentage |
| DebtTrapDecoder.CalculateLoan | components/DebtTrapDecoder.tsx:26-65 | rejects exactly a non-positive principal, rate or tenure; otherwise gives the APR, the annuity EMI, the month-by-month schedule of the loop, total interest as the sum of the rows' interest, and total repaid as principal plus interest |
| DebtTrapDecoder.ScheduleRows | components/DebtTrapDecoder.tsx:46-58 | the schedule has n rows numbered 1..n; each pays the EMI, splits it into interest (beginning balance × r) and principal, never shows a negative ending balance, and the next row starts at this row's beginning balance minus its principal paid |
| DebtTrapDecoder.SumInterestOfSchedule | components/DebtTrapDecoder.tsx:46-64 | the rows' interest adds up to n·EMI minus the principal actually paid off |
| DebtTrapDecoder.AnnuityClearsLoan | components/DebtTrapDecoder.tsx:37-49 | over exact reals, the annuity EMI takes the unclamped balance to exactly 0 after n months |
| DebtTrapDecoder.BalanceDecreasing | components/DebtTrapDecoder.tsx:46-49 | when the EMI exceeds the first month's interest, the balance strictly falls every month and never exceeds the principal |
| DebtTrapDecoder.AnnuityNeverClamps | components/DebtTrapDecoder.tsx:58 | with the annuity EMI the clamp to zero never fires: each ending balance equals the running balance, which stays positive until the last month |
| DebtTrapDecoder.TotalRepaidIsInstalments | components/DebtTrapDecoder.tsx:62-64 | total repaid equals EMI × tenure and total interest is positive |
| DebtTrapDecoder.CalculateLateFeeImpact | components/DebtTrapDecoder.tsx:67-73 | the loop's total is missedMonths × emi × lateFeeRate, and 0 for a non-positive count |
| DebtTrapDecoder.DebtTrapDecoderState.OnCalculate | components/DebtTrapDecoder.tsx:26-65 | invalid details leave every result field unchanged; valid ones replace all five results with those of `CalculateLoan` |
| DebtTrapDecoder.DebtTrapDecoderState.HypotheticalLateFees | components/DebtTrapDecoder.tsx:75 | the displayed late fees are 0.06 × EMI when an EMI exists, and 0 otherwise |
| DebtTrapDecoder.DebtTrapDecoderState.ComputeHypotheticalLateFees | components/DebtTrapDecoder.tsx:67-75 | running the late-fee loop with its defaults (2%, 3 months) gives `HypotheticalLateFees` |
| DebtTrapDecoder.DebtTrapDecoderState.constructor | components/DebtTrapDecoder.tsx:17-24 | the form starts at 50000, 2% a month and 12 months, with every result empty or 0 |
| LoanRiskLab.CalculateLoanDetails | components/LoanRiskLab.tsx:29-57 | invalid input keeps the previous results; valid input writes one record with the monthly rate annual/100/12, the annuity EMI, repayment EMI × n, interest repayment − loan (positive), late fees as the product formula (0 when either percentage is 0), and a risk-adjusted cost of repayment + fees, which is ≥ repayment for non-negative percentages |
| LoanRiskLab.AgreesWithAmortizationSchedule | components/LoanRiskLab.tsx:37-42 | the lab's total repayment equals the loan plus the decoder schedule's total interest at the same monthly rate |
| SavingsSimulator.CalculateFutureValue | components/SavingsSimulator.tsx:102-113 | the loop compounds `balance·(1+r) + deposit` from the initial amount for exactly totalMonths steps (none when that is ≤ 0); invested = initial + months × deposit |
| SavingsSimulator.Simulate | components/SavingsSimulator.tsx:101-116 | the form's rate and years become `rate/1200` and `12·years` months; the final value and the amount invested are those of the loop, interest earned is their difference, never negative for non-negative inputs and 0 at a zero rate |
| SavingsSimulator.ZeroRateEarnsNothing | components/SavingsSimulator.tsx:108-116 | at rate 0 the final value equals the amount invested, so interest earned is 0 |
| SavingsSimulator.InterestEarnedNonNegative | components/SavingsSimulator.tsx:116 | with non-negative inputs, interest earned (final − invested) is ≥ 0 |
| SavingsSimulator.EarnedBadgesFacts | components/SavingsSimulator.tsx:123-140 | each badge is earned iff its threshold holds (> 1.5 × invested, ≥ 1,000,000, ≥ 20 years) and the user lacks it; earned badges keep the order Starter, Wealth Builder, Time Alchemist, are not already held, and appending them to a duplicate-free badge list keeps it duplicate-free |
| SavingsSimulator.CheckAchievements | components/SavingsSimulator.tsx:120-151 | the pushed badges are exactly `EarnedBadges`; none leaves the profile untouched; otherwise they are appended and level = badge count + 1; a profile without duplicate badges keeps none |
| CashflowMirror.CalculateCashflow | components/CashflowMirror.tsx:31-43 | ideal = revenue − (fixed + variable); real = ideal − credit given + credit received; leaks = ideal − real = given − received, for every input |
| CashflowMirror.ChartData | components/CashflowMirror.tsx:45-49 | no result gives an empty chart; otherwise exactly Ideal, Real and Money Leaks in that order, with the leak bar max(leaks, 0) |
| CashflowMirror.LeakBarIsNetCreditGiven | components/CashflowMirror.tsx:39-48 | the leak bar shows credit given minus received when that is positive, and 0 otherwise |
| HiddenCostVisualizer.CalculateHiddenCosts | components/HiddenCostVisualizer.tsx:37-72 | a non-positive cost or lifespan keeps the previous result; otherwise the components are kWh × hours × 365 × years × rate, perYear × years and EMI × 12 × years, depreciation is the item cost, the total leaves depreciation out, the chart is Direct, Depreciation, Electricity, Maintenance, then Loan only when EMI > 0, filtered to positive values, all > 0, and the values add up to total + item cost for non-negative inputs |
| HiddenCostVisualizer.FilterPositiveKeepsPositive | components/HiddenCostVisualizer.tsx:70 | an item survives the filter iff it was charted with a positive value |
| HiddenCostVisualizer.FilterPositiveKeepsSum | components/HiddenCostVisualizer.tsx:70 | with non-negative values, filtering does not change the sum |
| HiddenCostVisualizer.ChartSumIsTotalPlusDepreciation | components/HiddenCostVisualizer.tsx:50-70 | for non-negative inputs, the charted values add up to the displayed total plus the depreciation |
| IncomeInflationTracker.SurvivalBasketOf | components/IncomeInflationTracker.tsx:83-90 | no city gives cost and share 0; a city gives rent + food + transport + misc, and share × income = cost × 100 for a positive income (share 0 otherwise) |
| IncomeInflationTracker.FutureRealValue | components/IncomeInflationTracker.tsx:93 | futureRealValue × (1 + inflation/100)^years = target |
| IncomeInflationTracker.NoInflationKeepsValue | components/IncomeInflationTracker.tsx:93 | at 0% inflation the real value is the target, for every year count |
| IncomeInflationTracker.FutureRealValueDecreasing | components/IncomeInflationTracker.tsx:93 | with positive inflation and target, more years give a strictly smaller real value |
| IncomeInflationTracker.ShowsFragilityWarning | components/IncomeInflationTracker.tsx:196-219 | the warning shows iff income > 0 and share > 70, and then the basket costs more than 70% of income |
| InformalPlanner.CalculateIncomeSmoothing | components/InformalPlanner.tsx:21-29 | invalid input keeps the previous recommendation; valid input gives salary + surplus = income, 0 ≤ surplus < income, and surplus 0 iff the percentage is 100 |
| InformalPlanner.FullSalaryHidesPanel | components/InformalPlanner.tsx:75 | a 100% fixed salary leaves no surplus to recommend, so the panel is hidden |
| BudgetService.AddBudgetEntry | services/api.ts:355-360 | appends one entry with id "b" + (old length + 1) and the given fields; earlier entries are unchanged |
| BudgetService.FindIndex | services/api.ts:363 | the first position with the id, or -1 exactly when no entry has it |
| BudgetService.UpdateReplacesFirstMatch | services/api.ts:361-368 | update keeps the length, replaces only the first entry with the id, and leaves the list alone when no entry has it |
| BudgetService.UpdateBudgetEntry | services/api.ts:361-368 | the array becomes `Updated(old, entry)` and the entry is returned |
| BudgetService.DeletePresentRemovesFirstMatch | services/api.ts:369-374 | a present id loses its first occurrence and nothing else |
| BudgetService.DeleteAbsentRemovesLast | services/api.ts:372 | an absent id makes `splice(-1, 1)` remove the last entry of a non-empty list; an empty list is unchanged |
| BudgetService.DeleteReportsNonEmpty | services/api.ts:371-373 | delete reports true exactly when the list was non-empty, and then removes exactly one entry |
| BudgetService.DeleteBudgetEntry | services/api.ts:369-374 | the array becomes `Deleted(old, id)` and the result says whether it got shorter |
| BudgetService.DeleteUnknownIdOnSeed | services/api.ts:372-373 | on the seed data, deleting "b99" removes "b8" (Freelance) and reports success |
| BudgetService.DeletedCheckedRemovesOnlyTheId | services/api.ts:369-374 | the intended delete removes one entry iff the id is present (its first occurrence) and otherwise changes nothing |
| BudgetService.DeleteBudgetEntryChecked | services/api.ts:369-374 | the corrected delete: the array becomes `DeletedChecked(old, id)`, and the result is true iff an entry was removed |
| BudgetService.GetBudgetEntries | services/api.ts:351-354 | the service hands out its own array, not a copy |
| BudgetService.GetBudgetEntriesCopy | services/api.ts:351-354 | the corrected read: a fresh array with the same entries |
| BudgetBuilder.TotalIncome | components/BudgetBuilder.tsx:71-73 | `totalIncome` (its properties are stated by `TotalsAfterAdd` and `TotalsPartitionEntries`) |
| BudgetBuilder.TotalExpenses | components/BudgetBuilder.tsx:74-76 | `totalExpenses` (its properties are stated by `TotalsAfterAdd`, `TotalsPartitionEntries` and `CategoriesSumToExpenses`) |
| BudgetBuilder.TotalsAfterAdd | components/BudgetBuilder.tsx:71-77 | an income entry raises total income and net savings by its amount; an expense entry raises total expenses and lowers net savings by it |
| BudgetBuilder.TotalsPartitionEntries | components/BudgetBuilder.tsx:71-76 | total income plus total expenses is the sum of all amounts |
| BudgetBuilder.OfKind | components/BudgetBuilder.tsx:71-76 | an entry is kept iff it is in the input and has the requested type; every kept entry has that type and the result is no longer than the input |
| BudgetBuilder.CategoryNamesFacts | components/BudgetBuilder.tsx:80-85 | the category keys are distinct, and a name is a key iff some expense entry has it; income entries add no key |
| BudgetBuilder.CategoriesSumToExpenses | components/BudgetBuilder.tsx:80-85 | the per-category expense totals add up to total expenses |
| BudgetBuilder.ExpenseCategories | components/BudgetBuilder.tsx:80-85 | the reduction's keys, in order, are the expense categories by first appearance, and each key maps to that category's expense total |
| BudgetBuilder.PieChart | components/BudgetBuilder.tsx:80-90 | the slices drawn from the reduction are `PieChartData(entries)` |
| BudgetBuilder.PieChartFacts | components/BudgetBuilder.tsx:87-90 | each expense category has exactly one slice, no other name has one, and the slices add up to total expenses |
| BudgetBuilder.BarChartData | components/BudgetBuilder.tsx:93-97 | exactly Income, Expenses and Net Savings with total income, total expenses and their difference |
| BudgetBuilder.BudgetBuilderView.HandleAddEntry | components/BudgetBuilder.tsx:47-69 | an empty category or amount ≤ 0 changes nothing; otherwise the service stores the entry, the screen's list becomes the previous list plus the entry (plus it twice when that list is the service's own array), and the form resets to "", 0, expense |
| BudgetBuilder.BudgetBuilderView.FetchBudgetEntries | components/BudgetBuilder.tsx:29-41 | as written, the screen's state is the service's array itself |
| BudgetBuilder.BudgetBuilderView.FetchBudgetEntriesCopy | components/BudgetBuilder.tsx:29-41 | the corrected load: a fresh array with the service's entries |
| BudgetBuilder.BudgetBuilderView.constructor | components/BudgetBuilder.tsx:21-27 | the screen starts with no entries and the form at "", 0, expense |
| BudgetBuilder.FirstAddAfterLoadAsWritten | components/BudgetBuilder.tsx:33-59 | loading as written and then adding one entry stores it once but shows it twice |
| BudgetBuilder.FirstAddAfterLoad | components/BudgetBuilder.tsx:33-59 | loading a copy and then adding one entry shows exactly what the service stores |
| SchemesService.GetRecommendedSchemes | services/api.ts:327-347 | a goal that mentions "retirement" in any letter case gets NPS, PPF and SCSS, even when it also mentions tax; otherwise one that mentions "tax" gets PPF, NSC and ELSS; any other goal gets PPF and NSC |
| SchemesService.AlwaysRecommendsPpf | services/api.ts:330-346 | every outcome lists two or three schemes, PPF among them |
| SchemesService.LowerCasedGoalSameRecommendation | services/api.ts:330-336 | lower-casing the goal first does not change the recommendation |
| SchemesService.RecommendationIgnoresCase | services/api.ts:330-336 | two goals that agree after lower-casing get the same schemes |
| SchemesService.RetirementCheckedBeforeTax | services/api.ts:330-341 | "Retirement and Tax" gets the retirement plan |
| AuthService.NewUser | services/api.ts:221-236 | the new profile has the given id, the badge "Newbie Navigator", level 1, and game progress at level 1 with 0 xp, 0 coins, only "business-quest-1" unlocked and nothing completed |
| AuthService.NewUserKeepsSubmittedFields | services/api.ts:223-225 | with the password, the profile gives back every submitted field, so only the password is dropped |
| AuthService.NewUserIndependentOfPassword | services/api.ts:223-225 | the password has no effect on the stored profile |
| CityService.FindCity | services/api.ts:378-381 | the first record of the city, or none exactly when no record has it |
| CityService.Cities | services/api.ts:382-385 | the cities in table order |
| CityService.FoundIffListed | services/api.ts:378-385 | a city is found iff `getAllCities` lists it |
| CityService.MockCities | services/api.ts:53-99 | the table lists Mumbai, Bengaluru, Delhi, Pune and Jaipur; Pune is found and Chennai is not |
| CityService.FindProfession | services/api.ts:386-389 | the first record of the profession, or none exactly when no record has it |
| CityService.ProfessionFoundIffListed | services/api.ts:386-393 | a profession is found iff `getAllProfessions` lists it |
| CityService.Professions | services/api.ts:390-393 | the professions in table order |
| BusinessLiteracyQuest.CompleteLevel | components/BusinessLiteracyQuest.tsx:308-325 | the progress after completing a level (its properties are stated by `CompleteLevelEffects`) |
| BusinessLiteracyQuest.SetLevelsFacts | components/BusinessLiteracyQuest.tsx:308-311 | writing a quest's completed list sets that key only, and changes the completed-level count by the size difference |
| BusinessLiteracyQuest.QuestIndex | components/BusinessLiteracyQuest.tsx:247 | the position of the first quest with the id, or -1 exactly when none has it |
| BusinessLiteracyQuest.NextLevelIndex | components/BusinessLiteracyQuest.tsx:225-226 | the first level in quest order whose id is not completed, or -1 exactly when all are |
| BusinessLiteracyQuest.CompletingChosenLevelAdvances | components/BusinessLiteracyQuest.tsx:308-311 | completing the chosen level moves the next choice strictly later in the quest, or ends it |
| BusinessLiteracyQuest.IsQuestCompleted | components/BusinessLiteracyQuest.tsx:452-455 | `isQuestCompleted` (its meaning is stated by `QuestCompletedIffNoNextLevel`) |
| BusinessLiteracyQuest.QuestCompletedIffNoNextLevel | components/BusinessLiteracyQuest.tsx:452-455 | a quest is completed iff it is unlocked and has no next level |
| BusinessLiteracyQuest.NewUserHasCompletedNothing | components/BusinessLiteracyQuest.tsx:452-455 | a newly registered user has completed no quest that has a level |
| BusinessLiteracyQuest.IsCorrectAnswer | components/BusinessLiteracyQuest.tsx:283-285 | an answer is correct iff some keyword, lower-cased, occurs in the lower-cased answer; with no keyword list it is incorrect |
| BusinessLiteracyQuest.AnyKeywordIn | components/BusinessLiteracyQuest.tsx:283-285 | `some` over the keywords: true iff one of them, lower-cased, occurs in the lower-cased answer |
| BusinessLiteracyQuest.AnswerCheckIgnoresCase | components/BusinessLiteracyQuest.tsx:283-285 | lower-casing the answer first gives the same verdict |
| BusinessLiteracyQuest.AnswerContainingKeywordIsCorrect | components/BusinessLiteracyQuest.tsx:283-285 | an answer containing a keyword verbatim is accepted |
| BusinessLiteracyQuest.CompleteLevelEffects | components/BusinessLiteracyQuest.tsx:308-325 | completion appends the level id to that quest's list only, adds exactly the xp and coin rewards, raises the completed count by one, clears the current task, and keeps level and unlocked quests |
| BusinessLiteracyQuest.AwardBadgeFacts | components/BusinessLiteracyQuest.tsx:313-316 | a present, non-empty reward badge is held afterwards; a missing or empty reward, or one already held, changes nothing; earlier badges keep their places, and no badge is held twice |
| BusinessLiteracyQuest.AwardBadge | components/BusinessLiteracyQuest.tsx:313-316 | `updatedBadges`: the level's badge appended when it is truthy and not yet held (its properties are stated by `AwardBadgeFacts`) |
| BusinessLiteracyQuest.OverallLevelBounds | components/BusinessLiteracyQuest.tsx:328 | badges + floor(xp/500) + 1 is at least badges + 1 and grows with xp |
| BusinessLiteracyQuest.UnlockNext | components/BusinessLiteracyQuest.tsx:247-255 | unlocking the quest after the clicked one (its properties are stated by `UnlockNextFacts`) |
| BusinessLiteracyQuest.UnlockNextFacts | components/BusinessLiteracyQuest.tsx:247-255 | unlocking leaves progress untouched or appends exactly the quest after the clicked one; xp, coins and completed levels stay, and no quest is unlocked twice |
| BusinessLiteracyQuest.LastQuestUnlocksNothing | components/BusinessLiteracyQuest.tsx:247-248 | finishing the last quest of the list unlocks nothing and changes nothing |
| BusinessLiteracyQuest.ShopTier | components/BusinessLiteracyQuest.tsx:482 | the shop tier name for the xp (its thresholds are stated by `ShopTierMonotone`) |
| BusinessLiteracyQuest.ShopTierMonotone | components/BusinessLiteracyQuest.tsx:482 | more xp never gives a lower shop tier; Small Stall iff xp < 500, Thriving Store iff 500 ≤ xp < 1500, Business Empire iff xp ≥ 1500 |
| BusinessLiteracyQuest.QuestGame.HandleQuestBuildingClick | components/BusinessLiteracyQuest.tsx:219-263 | an unknown quest changes nothing; otherwise it becomes active; its first uncompleted level becomes the task and only the current ids change; with all levels done `UnlockNext` applies; the profile mirrors the saved progress |
| BusinessLiteracyQuest.QuestGame.HandleLevelCompletion | components/BusinessLiteracyQuest.tsx:304-361 | with no active quest nothing changes; otherwise progress becomes `CompleteLevel`, the badge is awarded and the level recomputed, and "Premium Trial Unlocked" is appended once three levels are done and the profile did not hold it before |
| BusinessLiteracyQuest.QuestGame.HandleMentorSendMessage | components/BusinessLiteracyQuest.tsx:265-361 | a blank answer or no active level changes nothing; the level is completed iff the mentor replied and the answer is correct; a completion keeps the quests and the active quest and, with an active quest, has exactly the effects of `HandleLevelCompletion` (progress, badges, level, premium trial, task cleared) |
| BusinessLiteracyQuest.LevelIndex | components/BusinessLiteracyQuest.tsx:194 | the position of the first level with the id, or -1 exactly when none has it |
| BusinessLiteracyQuest.FindNextLevelById | components/BusinessLiteracyQuest.tsx:194 | looking the next level up again by its id finds that same level, even when ids repeat |
| BusinessLiteracyQuest.ClickSelectionSurvivesRefetch | components/BusinessLiteracyQuest.tsx:190-196 | after a click saves a quest and its next level as current (both ids non-empty), the fetch that the save triggers selects that same quest and level |
| BusinessLiteracyQuest.RefetchAfterCompletion | components/BusinessLiteracyQuest.tsx:197-205 | after a completion clears the current ids, the fetch selects the first unlocked quest and its first level not yet completed, all earlier levels of it being completed; with nothing unlocked the selection is kept |
| BusinessLiteracyQuest.QuestGame.ApplyFetchedGameData | components/BusinessLiteracyQuest.tsx:178-216 | the fetched quests and progress replace the screen's own, the active quest and level become `InitialSelection` of them, and the profile and premium-trial flag are kept |
| BusinessLiteracyQuest.QuestGame.constructor | components/BusinessLiteracyQuest.tsx:148 | the progress is the profile's own, or level 1 with nothing unlocked |
| BusinessLiteracyQuest.QuestGame.SaveProgress | components/BusinessLiteracyQuest.tsx:236-239 | saving sets the progress and the profile's copy of it, and changes nothing else |
| GovernmentSchemes.Next | components/GovernmentSchemes.tsx:49-50 | the index after `goToNext` (its properties are stated by `MovesStayInRange` and `NextPreviousInverse`) |
| GovernmentSchemes.Previous | components/GovernmentSchemes.tsx:61-62 | the index after `goToPrevious` (its properties are stated by `MovesStayInRange` and `NextPreviousInverse`) |
| GovernmentSchemes.MovesStayInRange | components/GovernmentSchemes.tsx:43-62 | next and previous keep the index in [0, n), step by one inside the list, and wrap n−1 to 0 and 0 to n−1 |
| GovernmentSchemes.NextPreviousInverse | components/GovernmentSchemes.tsx:50-62 | previous undoes next and next undoes previous |
| GovernmentSchemes.EmptyListKeepsIndex | components/GovernmentSchemes.tsx:50-62 | with no schemes, next and previous leave the index unchanged |
| GovernmentSchemes.FullCycleReturns | components/GovernmentSchemes.tsx:43 | n auto-advance ticks return to the starting index |
| GovernmentSchemes.AdvanceWraps | components/GovernmentSchemes.tsx:43 | k ≤ n ticks from i land at i + k, less n once past the end |
| GovernmentSchemes.JsRem | components/GovernmentSchemes.tsx:62 | JavaScript's truncating `%`: for a non-negative dividend it agrees with the Euclidean remainder in [0, n), and it always lies strictly between −n and n |
| GovernmentSchemes.SchemeCarousel.GoToNext | components/GovernmentSchemes.tsx:48-58 | the index becomes `Next(i, n)` (unchanged for an empty list) and stays valid |
| GovernmentSchemes.SchemeCarousel.GoToPrevious | components/GovernmentSchemes.tsx:60-70 | the index becomes `Previous(i, n)` and stays valid |
| GovernmentSchemes.SchemeCarousel.GoToDot | components/GovernmentSchemes.tsx:146-147 | a dot click sets the index to that dot |
| GovernmentSchemes.SchemeCarousel.Tick | components/GovernmentSchemes.tsx:42-44 | one auto-advance tick moves to the next scheme |
| GovernmentSchemes.SchemeCarousel.constructor | components/GovernmentSchemes.tsx:11 | the carousel starts at the first scheme |
| CursorEffect.UpdateTrail | components/CursorEffect.tsx:16-20 | the `setTrail` updater (its properties are stated by `UpdateTrailFacts`) |
| CursorEffect.UpdateTrailFacts | components/CursorEffect.tsx:16-20 | one update leaves at most 8 points ending with the new one; a shorter trail just grows; a full one loses exactly its oldest point |
| CursorEffect.TrailIsRecentSuffix | components/CursorEffect.tsx:14-20 | after any moves, the trail is the last min(8, count) positions in order, and the cursor is at the newest |
| CursorEffect.TrailBounded | components/CursorEffect.tsx:19 | the trail length is min(8, number of moves) |
| CoinStack.VisualCoinCount | components/CoinStack.tsx:13 | `visualCoinCount` (its bounds are stated by `VisualCoinCountBounds` and `VisualCoinCountMonotone`) |
| CoinStack.VisualCoinCountBounds | components/CoinStack.tsx:12-13 | at most 10 visual coins; for 0 ≤ coins < 110 the count is floor(coins/10); from 100 coins on it is 10 |
| CoinStack.VisualCoinCountMonotone | components/CoinStack.tsx:13 | more coins never give fewer visual coins |
| CoinStack.PlaceholderIffFewerThanTen | components/CoinStack.tsx:13-33 | "No coins yet!" shows iff coins < 10, and otherwise the number of coin elements equals the count |
| Strings.IncludesAt | services/api.ts:330 | `includes` holds whenever the substring occurs at some position |
| Strings.ToLower | services/api.ts:330 | the same length, with each character lower-cased at its own position |

## Left out

- I/O and side effects:
  - Network calls, `localStorage` and `setTimeout` delays are not modelled.
  - `authService.login`, `loginWithGoogle`, `logout`, `isAuthenticated`, `getCurrentUser` and `onAuthStateChanged` are not modelled.
  - `userService` and `gameService` (their fetches, their mock fallbacks and `MOCK_QUESTS`) are not modelled; quests are a parameter instead.
  - `schemesService.getGovernmentSchemes` returns a constant list; the carousel takes any list.
  - `services/geminiService.ts` is not part of this model.
- Persistence: saving progress or a profile is taken to succeed and to return its argument (`QuestGame.SaveProgress`). The `catch` branches that only set an error message are left out. `register` takes the id (`Date.now().toString()` in the source) as a parameter and treats the POST as successful; on failure the source returns null.
- The AI mentor conversation:
  - The chat messages, the loading flag and the reward and premium modals' contents are not modelled.
  - `HandleMentorSendMessage` takes the outcome of the mentor call as `mentorReplied`.
  - The source's guard on `isMentorLoading` is omitted, because handlers run one at a time in the model.
- `BusinessLiteracyQuest.QuestGame.HandleQuestBuildingClick`, `HandleLevelCompletion` and `HandleMentorSendMessage`: their ensures describe the state right after the handler. Every save they make changes the profile's progress, and the dashboard passes its own profile state back (components/Dashboard.tsx:58), so the fetch effect runs again afterwards. That re-run is the separate method `ApplyFetchedGameData`, whose fetched data are parameters (the game service is asynchronous I/O). `ClickSelectionSurvivesRefetch` and `RefetchAfterCompletion` state what it selects after a click and after a completion. The loading flag and the error message of the fetch are not modelled.
- The clock: the date of a new budget entry (`new Date().toISOString().split('T')[0]`) is the parameter `date` of `BudgetBuilder.BudgetBuilderView.HandleAddEntry`, and the registration id (`Date.now()`) is a parameter of `AuthService.NewUser`; neither is constrained.
- Timers and randomness: the one-second savings debounce, the restarting of the carousel interval (only the tick is modelled) and the random background buildings are not modelled.
- Rendering: colours, animation, chart layout and currency formatting are not modelled.
- Floating point: money is exact `real`, so IEEE-754 rounding and the accuracy of `Math.pow` are not captured.
  - The clamp of the ending balance is modelled, and is proved never to fire for the annuity EMI.
  - `Math.pow` and `Math.floor` are exact.
- A missing user profile (`if (!userProfile) return;` in the savings simulator) is not modelled; `CheckAchievements` takes a profile.
- Input parsing: `parseFloat`/`parseInt`, NaN, and non-integer years or counts are not modelled. The inputs are well-formed numbers and integer counts.
- `Strings.ToLower`: lower-cases only ASCII letters, where JavaScript's `toLowerCase` covers all of Unicode.
- `Strings.IsBlank` covers the ECMAScript white-space and line-terminator characters as fixed code points.
- `BudgetBuilder.CategoryNames`: uses insertion order for the keys. JavaScript enumerates integer-like keys (a category named "2023") first in numeric order, and treats `__proto__` specially; neither is modelled.
- `BudgetBuilder.ExpenseCategories`: accumulates into a plain `{}`, so `acc[e.category] || 0` reads an inherited `Object.prototype` property for a category named like one (`constructor`, `toString`, `valueOf`, …); an expense of 500 in category "constructor" then gives the string `"function Object() { [native code] }500"` where the model gives 500. The model treats every category name as a fresh key.
- `BudgetBuilder.ExpenseCategories`: walks all entries and skips income, where the source filters first and then reduces; the accumulated map is the same.
- `CashflowMirror.CalculateCashflow`: the result fields `real`/`ideal` are named `realCashflow`/`idealCashflow`, because `real` is a Dafny keyword.
- `FinMath.Emi`: requires a positive monthly rate and at least one month. Both calculators reject other inputs before computing it.
- `IncomeInflationTracker.FutureRealValue`: requires an inflation rate other than −100%. At −100% the source divides by zero (`Math.pow(0, years)`) and shows Infinity or NaN, which exact reals cannot express.
- `GovernmentSchemes.SchemeCarousel.GoToDot`: requires a dot index inside the list, because dots are rendered only for the schemes' indices.
- `GovernmentSchemes.SchemeCarousel.Tick`: requires a non-empty list, because the interval is installed only then.
- `CursorEffect.CursorPosition`: holds integer coordinates (`clientX`/`clientY`).

## Findings

| source | as written | input that shows it | evidently intended | confidence | as-written member | corrected member |
|---|---|---|---|---|---|---|
| services/api.ts:372 | `MOCK_BUDGET.splice(MOCK_BUDGET.findIndex(...), 1)`: for an unknown id `findIndex` is −1, so `splice(-1, 1)` removes the last entry and the function returns true | delete "b99" from the eight seed entries: "b8" (Freelance) is removed and the call reports success | an unknown id removes nothing and returns false | high; not executed | BudgetService.DeleteUnknownIdOnSeed | BudgetService.DeleteBudgetEntryChecked |
| services/api.ts:353 | `getBudgetEntries` returns `MOCK_BUDGET` itself; the budget screen stores that array (components/BudgetBuilder.tsx:34), `addBudgetEntry` pushes the new entry into it (services/api.ts:358), and the updater `[...prev, newEntry]` (components/BudgetBuilder.tsx:59) appends it a second time | load the screen, then add one expense: the service holds 9 entries, the screen shows 10 with the new one twice | the screen shows each stored entry once (the service hands out a copy) | high; not executed | BudgetBuilder.FirstAddAfterLoadAsWritten | BudgetBuilder.FirstAddAfterLoad |

# Trade settlement core, modelled in Dafny

This project models the business logic of a small trade-settlement domain:

- **Weekend policies** (`Weekend`): the two fixed weekend-day sets `FRI_SAT` and `SAT_SUN`.
- **Settlement-date adjustment** (`DateUtil.determineNextAllowableDate`): a requested date moves forward one day at a time until it is no longer a weekend day of the policy.
- **Trading instructions** (`TradingInstruction`): a validated, immutable buy/sell instruction. A builder supplies eight inputs, and construction checks them in a fixed order; the first failing check aborts. The stored settlement date is the requested date adjusted for the currency's weekend policy: AED and SAR use Friday/Saturday, every other currency Saturday/Sunday. The trade amount is price per unit × agreed FX rate × number of units, exactly.
- **Reports** (`ReportGenerator`): over a fixed instruction list and a settlement date, the total of the trade amounts, and the matching instructions ranked by ascending trade amount. Incoming means SELL and outgoing means BUY.

Modelling choices:

- A date is its epoch-day number (1970-01-01 is day 0). Its weekday is ordinal `(d + 3) % 7` with Monday = 0. On that scale 2017-08-13 is day 17391, a Sunday.
- A `LocalDate` is a date between `LocalDate.MIN` and `LocalDate.MAX` (epoch days -365243219162 and 365241780471). `plusDays` past `LocalDate.MAX` throws `DateTimeException`; the model returns a range error there. `LocalDate.MAX` is a Friday, so this can only happen under FRI_SAT.
- `BigDecimal` values are exact `real`s. The builder's unit count is a Java `int`, modelled as the subset type `Int32`.
- A Java reference that may be null is an `Option`. A `checkNotNull` or `checkState` failure is the `Failure` case of a `Result`, tagged with the argument or field it concerns.
- Instructions and generators are immutable values, and every query is a pure function. A generator holds a snapshot of its list: see `ReportGenerator.Of` under "Left out" for how this differs from the Java.

Files: `wrappers.dfy` (Option/Result), `weekend.dfy`, `date_util.dfy`, `trading_instruction.dfy`, `report_generator.dfy`.

Where the sources disagree:

- `TradingInstruction.java` is an older draft. It calls the traded item `ProductType`, stores the requested settlement date unchanged, and has no trade amount.
- The unit tests expect more: `EntityType`, an adjusted settlement date, and `determineTradeAmount`. The model follows the tests on those three points. The adjustment is made after the draft's ten checks, so a range error is reported only when all of them pass.
- On validation order and equality, the model follows the draft.
- AED and SAR are matched ignoring letter case. The tests only use upper-case codes, so matching lower-case codes is a modelling choice.

## Model

| member | source | states |
|---|---|---|
| Weekend.WeekendIsTwoConsecutiveDays | src/main/java/com/org/trade/core/domain/Weekend.java:9-10 | each policy's weekend set has exactly two distinct days, and they are consecutive (a day and the day after it) |
| Weekend.FiveBusinessDays | src/main/java/com/org/trade/core/domain/Weekend.java:9-10 | every policy leaves exactly five business days in the week |
| Weekend.NoThreeDayWeekend | src/main/java/com/org/trade/core/domain/Weekend.java:9-10 | no policy has three consecutive weekend days, so a run of weekend days is at most two long |
| Weekend.WeekendPrecedesResumeDay | src/main/java/com/org/trade/core/domain/Weekend.java:9-10 | the weekend days are exactly the one or two days before the policy's first business day, and each step forward from a weekend day gets one day closer to it |
| DateUtil.DayOfWeekAdvances | src/main/java/com/org/trade/core/domain/util/DateUtil.java:22-23 | adding one day to a date moves its weekday to the next weekday, wrapping from Sunday to Monday |
| DateUtil.NoThreeConsecutiveWeekendDays | src/main/java/com/org/trade/core/domain/util/DateUtil.java:22-24 | of any three consecutive dates, at least one is a business day, so the loop runs at most twice |
| DateUtil.NextAllowableDate | src/main/java/com/org/trade/core/domain/util/DateUtil.java:21-25 | the result is the first business day on or after the input: not a weekend day, every date from the input up to it is a weekend day, and it is at most two days later |
| DateUtil.DetermineNextAllowableDate | src/main/java/com/org/trade/core/domain/util/DateUtil.java:18-26 | a null date fails first, then a null policy. Otherwise the one-day-at-a-time loop returns the first business day on or after the input, within two steps, which is the same date the pure adjustment gives. It fails with a range error exactly when that date would lie past `LocalDate.MAX`, which happens only for `LocalDate.MAX` itself under FRI_SAT |
| DateUtil.NextAllowableDateInRange | src/main/java/com/org/trade/core/domain/util/DateUtil.java:21-24 | starting from any `LocalDate`, the adjusted date lies past `LocalDate.MAX` exactly when the start is `LocalDate.MAX` (a Friday) and the policy is FRI_SAT |
| DateUtil.FirstBusinessDayIsNextAllowableDate | src/main/java/com/org/trade/core/domain/util/DateUtil.java:21-25 | a date is the first business day on or after the input exactly when it is the adjusted date, so the first business day is unique |
| DateUtil.BusinessDayUnchanged | src/main/java/com/org/trade/core/domain/util/DateUtil.java:22-25 | a date comes back unchanged exactly when it is not a weekend day |
| DateUtil.NextAllowableDateIdempotent | src/main/java/com/org/trade/core/domain/util/DateUtil.java:18-26 | adjusting an adjusted date changes nothing |
| DateUtil.NextAllowableDateSteps | src/main/java/com/org/trade/core/domain/util/DateUtil.java:22-24 | a weekend date moves forward exactly the number of days left until the day after the policy's weekend; a business day does not move |
| DateUtil.SatSunShifts | src/test/java/com/org/trade/core/domain/util/DateUtilTest.java:39-47 | under SAT_SUN a Saturday moves +2 and a Sunday +1 (to Monday); any other day stays as it is |
| DateUtil.FriSatShifts | src/test/java/com/org/trade/core/domain/util/DateUtilTest.java:50-58 | under FRI_SAT a Friday moves +2 and a Saturday +1 (to Sunday); any other day stays as it is |
| DateUtil.TestDateExamples | src/test/java/com/org/trade/core/domain/util/DateUtilTest.java:32-58 | 2017-08-13 is a Sunday; Tuesday 2017-08-15 is kept; 08-12 and 08-13 go to 08-14 under SAT_SUN; 08-11 and 08-12 go to 08-13 under FRI_SAT |
| TradingInstruction.FirstFailing | src/main/java/com/org/trade/core/domain/TradingInstruction.java:22-34 | returns nothing exactly when every check in the list passes; otherwise returns a check that fails while all checks before it pass |
| TradingInstruction.FirstFailingAt | src/main/java/com/org/trade/core/domain/TradingInstruction.java:22-34 | a check that fails while all earlier ones pass is the one reported, so the reported check is determined by position |
| TradingInstruction.Build | src/main/java/com/org/trade/core/domain/TradingInstruction.java:22-34 | construction succeeds exactly when all ten checks pass and the adjusted settlement date is still a `LocalDate`. On a failed check the error names the first failing check in source order; otherwise the only failure is the range error, for a FRI_SAT currency settling on `LocalDate.MAX`. On success the instruction is valid, holds the inputs, and its settlement date is the first business day on or after the requested date under the currency's policy |
| TradingInstruction.RebuildRoundTrip | src/main/java/com/org/trade/core/domain/TradingInstruction.java:22-34 | rebuilding an instruction from its own fields returns the same instruction exactly when it is valid |
| TradingInstruction.BuildRejectsMissingInputs | src/main/java/com/org/trade/core/domain/TradingInstruction.java:23-32 | a null entity type fails with that field named; a null direction, rate, currency, instruction date, settlement date or price makes construction fail |
| TradingInstruction.BuildRejectsNonPositive | src/main/java/com/org/trade/core/domain/TradingInstruction.java:26-33 | a rate or price ≤ 0, or a unit count ≤ 0 (zero included), makes construction fail |
| TradingInstruction.StructuralEquality | src/main/java/com/org/trade/core/domain/TradingInstruction.java:37-54 | the eight field comparisons of `equals` hold exactly when the two instructions are the same value, and instructions that are `equals` have equal hash codes |
| TradingInstruction.EqualsIgnoreCaseIffSameUpperCase | src/test/java/com/org/trade/core/domain/TradingInstructionTest.java:119-151 | two codes match ignoring case exactly when their upper-case forms are equal |
| TradingInstruction.PolicyFor | src/test/java/com/org/trade/core/domain/TradingInstructionTest.java:102-151 | a currency gets FRI_SAT exactly when its upper-case form is AED or SAR; every other currency gets SAT_SUN |
| TradingInstruction.PolicyForExamples | src/test/java/com/org/trade/core/domain/TradingInstructionTest.java:102-151 | "AED", "aed", "Aed", "SAR" and "sar" get FRI_SAT; "USD" and "GBP" get SAT_SUN |
| TradingInstruction.TradeAmount | src/test/java/com/org/trade/core/domain/TradingInstructionTest.java:153-157 | the trade amount of an instruction with a positive rate, price and unit count is positive |
| TradingInstruction.TradeAmountSplits | src/test/java/com/org/trade/core/domain/TradingInstructionTest.java:153-157 | the amount is exact and linear in the units: splitting the units into two trades splits the amount with no loss |
| TradingInstruction.BuildTestCases | src/test/java/com/org/trade/core/domain/TradingInstructionTest.java:20-157 | the happy-path builder succeeds with trade amount 48 × 0.50 × 10 = 240. Each variant the tests try fails with the field and kind of failure they expect: a null field, a zero or negative rate, zero or negative units, a null, zero or negative price |
| TradingInstruction.SettlementDateTestCases | src/test/java/com/org/trade/core/domain/TradingInstructionTest.java:102-151 | in USD, Saturday 08-12 and Sunday 08-13 settle on Monday 08-14; in SAR and AED, Friday 08-11 and Saturday 08-12 settle on Sunday 08-13 |
| TradingInstruction.BuildAtLocalDateMax | src/main/java/com/org/trade/core/domain/TradingInstruction.java:22-34 | an AED instruction settling on `LocalDate.MAX` cannot be built, because its Friday would move past the last representable date; a USD instruction settling on that Friday keeps it |
| ReportGenerator.Of | src/main/java/com/org/trade/core/reporting/ReportGenerator.java:22-29 | a null list is rejected; any list, including an empty one, is accepted and kept as given |
| ReportGenerator.Filter | src/main/java/com/org/trade/core/reporting/ReportGenerator.java:68-69 | keeps only the elements the predicate accepts, each exactly as often as it occurs in the input |
| ReportGenerator.Amounts | src/main/java/com/org/trade/core/reporting/ReportGenerator.java:70 | one trade amount per instruction, position by position |
| ReportGenerator.FoldAddAmounts | src/main/java/com/org/trade/core/reporting/ReportGenerator.java:71 | folding the trade amounts onto a start value adds their sum to it |
| ReportGenerator.ReduceAddOrZero | src/main/java/com/org/trade/core/reporting/ReportGenerator.java:71-72 | `reduce(add)` followed by `orElse(ZERO)` gives the sum of the amounts, and zero for no instructions |
| ReportGenerator.FilteredSumIsMatchingTotal | src/main/java/com/org/trade/core/reporting/ReportGenerator.java:67-72 | filtering by direction and then by date, and summing, gives the sum over exactly the instructions that match both |
| ReportGenerator.CalculateTotal | src/main/java/com/org/trade/core/reporting/ReportGenerator.java:65-73 | a null date is rejected. Otherwise the result is the sum of the trade amounts of exactly the instructions whose direction matches and whose settlement date equals the query date |
| ReportGenerator.CalculateTotalOfIncomingTransactions | src/main/java/com/org/trade/core/reporting/ReportGenerator.java:37-39 | the incoming total is the general total for SELL, and nothing else differs |
| ReportGenerator.CalculateTotalOfOutgoingTransactions | src/main/java/com/org/trade/core/reporting/ReportGenerator.java:47-49 | the outgoing total is the general total for BUY, and nothing else differs |
| ReportGenerator.Insert | src/main/java/com/org/trade/core/reporting/ReportGenerator.java:80 | inserting into a list sorted by trade amount keeps it sorted, and the result holds the old elements plus the new one |
| ReportGenerator.PrependSorted | src/main/java/com/org/trade/core/reporting/ReportGenerator.java:80 | an instruction whose amount is at most every amount in a sorted list can go at its front and the list stays sorted |
| ReportGenerator.SortByAmount | src/main/java/com/org/trade/core/reporting/ReportGenerator.java:80 | the result is in non-decreasing trade-amount order and is a permutation of the input (equal as multisets) |
| ReportGenerator.Sort | src/main/java/com/org/trade/core/reporting/ReportGenerator.java:75-82 | a null date is rejected. Otherwise the result is in non-decreasing trade-amount order and holds each matching instruction as often as it occurs in the list, and nothing else; every element has the requested direction and settles on the query date |
| ReportGenerator.SortIncomingTradingByAmount | src/main/java/com/org/trade/core/reporting/ReportGenerator.java:54-56 | the incoming ranking is the general ranking for SELL, and every instruction in it is a SELL settling on the query date |
| ReportGenerator.SortOutgoingTradingByAmount | src/main/java/com/org/trade/core/reporting/ReportGenerator.java:61-63 | the outgoing ranking is the general ranking for BUY, and every instruction in it is a BUY settling on the query date |
| ReportGenerator.SumAmountsRemove | src/main/java/com/org/trade/core/reporting/ReportGenerator.java:67-72 | taking one instruction out of a list takes exactly its trade amount off the sum |
| ReportGenerator.SumAmountsPermutation | src/main/java/com/org/trade/core/reporting/ReportGenerator.java:65-82 | two lists that are permutations of each other have the same sum of trade amounts |
| ReportGenerator.SortedSumEqualsTotal | src/main/java/com/org/trade/core/reporting/ReportGenerator.java:65-82 | the trade amounts in a ranking add up to the total for the same date and direction |
| ReportGenerator.NoMatchTotalsZero | src/main/java/com/org/trade/core/reporting/ReportGenerator.java:71-72 | when no instruction matches, the total is zero |
| ReportGenerator.TotalPositiveIffSomeMatch | src/main/java/com/org/trade/core/reporting/ReportGenerator.java:65-72 | over built instructions the total is never negative, and it is positive exactly when some instruction matches |
| ReportGenerator.ZeroTotalCases | src/test/java/com/org/trade/core/reporting/ReportGeneratorTest.java:26-67 | an empty list gives zero incoming and outgoing totals, and so does a date nothing settles on. A null list is rejected |

## Left out

- Exception types and message texts of the Guava precondition helpers. Each failure is an error value naming the argument or field it concerns.
- The fluent builder setters. A builder is a record of eight inputs, and setting a field is a record update.
- `java.time.LocalDate` year, month and leap-year arithmetic. Dates are epoch-day numbers, and `isEqual` is integer equality. The range bounds and the `plusDays` overflow are modelled.
- ReportGenerator.Of: Java stores the caller's `List` by reference, so changing that list later changes later reports; the model takes a snapshot, since a `seq` cannot be aliased. Java also accepts a list holding `null` elements, after which every query throws `NullPointerException` in its `filter` lambdas; a model list cannot hold a missing instruction, so that failure is not modelled.
- `BigDecimal` scale (`240.00` versus `240`). Amounts are exact reals, so two values that differ only in scale are equal in the model; in Java `equals` tells them apart.
- TradingInstruction.StructuralEquality: compares rates and prices as exact reals, without `BigDecimal`'s scale-sensitive `equals`, because the model does not represent scale.
- TradingInstruction.PolicyFor: folds case for ASCII letters only. Java's `equalsIgnoreCase` also folds some non-ASCII letters onto A, E, D, S or R (the long s `ſ`, for one); the model does not include them.
- Concrete hash values. `HashCode` combines the eight field hashes the way `Objects.hashCode` does, with 32-bit wrap-around. The hashes of enum constants, decimals and dates are stand-ins, because the JDK's values are not part of this model. `StringHash` runs `String.hashCode`'s recurrence over Unicode scalar values, not UTF-16 code units, so it differs from Java for characters above U+FFFF. Only "equal instructions have equal hashes" is claimed.
- The test fixture's `LocalDate.now()`. The lemmas about the happy-path builder take "today" as a parameter.
- `HappyPathBuilder.buildTradingInstructions` is not part of this model. So the report tests' expected total of 1306.00 and the expected OIL, CURRENCY, GOLD ranking are not restated.
- The `EntityType` and `Direction` enum sources are not part of this model. `EntityType` holds the three values the tests use.
- Sort stability. The insertion sort keeps equal amounts in encounter order, as `Stream.sorted` does, but no lemma states this.
- The truncated tail of `Weekend.java` (the field and constructor declarations). Only the two weekend sets are modelled.

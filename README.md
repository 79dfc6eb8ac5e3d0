# Financial profile quiz: scenario engine and quiz navigation

This project models the two pieces of logic behind a financial-profile quiz.

The first is the **scenario engine**, `calculateScenarios`, together with the
question table it is paired with. It takes the answers of one quiz session, a
map from question id to answer value. It returns three projected portfolio
values, for a conservative (4 %), a moderate (7 %) and an aggressive (11 %)
annual rate, plus a profile label:

- The average of all answer values picks the profile, by first-match thresholds.
- Three of the answers pick, from fixed bucket tables, the initial investment,
  the monthly contribution and the time horizon.
- Each projection compounds the principal monthly and adds an ordinary
  annuity of the monthly payments. The result is rounded to whole dollars.

The second is the **quiz navigation state machine**. It holds the current step
and the answers so far. It changes through the answer, next and previous
handlers. It also derives when a question counts as answered, when the quiz is
complete, and which buttons are enabled.

Modules:

- `Records` (records.dfy): a JavaScript object used as a dictionary. It is a
  list of entries with distinct keys, in insertion order. That is the order
  JavaScript keeps for keys that are not array indices, as every question id
  is. It supports property lookup, the spread update `{...r, [k]: v}` and the
  sum of its values.
- `Compounding` (compounding.dfy): `Math.pow` with a whole-number exponent, and
  the geometric sum that an annuity adds up to. Both work over exact reals.
- `QuizData` (quiz_data.dfy): the question table, the average score, the
  profile thresholds, the bucket tables, the future-value formula, rounding
  and `CalculateScenarios`.
- `QuizFlow` (quiz.dfy): the class `Quiz`. It has the fields `currentStep` and
  `responses`, the three handlers, a method for clicking an answer button,
  and the derived predicates and button guards.

Representation choices:

- Numbers are exact reals. `Math.round(x)` is `Floor(x + 0.5)`.
- `months = years * 12` is proved to be one of 6, 24, 60, 120 or 240.
  So `Math.pow` becomes a recursive power with a natural exponent.
- An empty response map gives an average of `0 / 0`, which is NaN. The model
  represents it as the `NaN` case of `Score`. Every comparison with NaN is
  false, so that case falls through to the `aggressive` profile.
- Answer values are integers, as every value the quiz stores comes from the
  answer table.

How the code computes the result:

- The profile comes from the plain average of every stored answer, the
  keys that also pick the principal, payment and horizon included
  (src/lib/quizData.ts:110-111, 162-167).
- The three rates are fixed constants with no adjustment
  (src/lib/quizData.ts:146-148).
- An empty map yields `aggressive`, because its NaN average fails every
  threshold (src/lib/quizData.ts:162-167).

## Model

| member | source | states |
|---|---|---|
| `Records.Get` | src/components/Quiz.tsx:63 | a lookup finds a value exactly when the key is in the object, and the value found is the one stored under that key |
| `Records.Put` | src/components/Quiz.tsx:19-22 | the spread update sets the key to the new value and leaves every other key's value unchanged; the key set grows by that key only; the entry count grows by one only when the key is new, so re-answering never adds a key |
| `Records.KeyCount` | src/components/Quiz.tsx:64 | an object has as many keys as entries, so `Object.keys(r).length` counts distinct keys |
| `Records.Sum` | src/lib/quizData.ts:110-111 | the `reduce` over `Object.values`; its contract is carried by `Records.SumBounds` (the sum lies between the count times the lowest value and the count times the highest) and by `QuizData.AvgScore` (the average times the count is this sum) |
| `Records.SumBounds` | src/lib/quizData.ts:110-111 | the sum of the values lies between the count times the lowest value and the count times the highest |
| `QuizData.QuestionTable` | src/lib/quizData.ts:11-100 | there are 8 questions with pairwise distinct ids, and each question offers the answer values 1, 2, 3, 4, 5 in that order |
| `QuizData.AnswerValueAt` | src/lib/quizData.ts:11-100 | every question has five answers, and the answer at position `i` has value `i + 1` |
| `QuizData.QuestionIdCount` | src/lib/quizData.ts:11-100 | there are exactly 8 distinct question ids, one per question |
| `QuizData.AvgScore` | src/lib/quizData.ts:110-111 | the average is NaN exactly when the map is empty; otherwise the average times the entry count is the sum of all values |
| `QuizData.AvgScoreBounds` | src/lib/quizData.ts:110-111 | for a non-empty map whose values lie in `lo..hi` the average is a number in `[lo, hi]`, so for quiz answers it lies in `[1, 5]` |
| `QuizData.ProfileFor` | src/lib/quizData.ts:162-167 | a NaN average falls through every threshold to 'aggressive'; the full band structure is stated by `QuizData.ProfileBands`, the order by `QuizData.ProfileMonotone`, the labels by `QuizData.ProfileLabels` |
| `QuizData.ProfileBands` | src/lib/quizData.ts:162-167 | first-match thresholds as disjoint bands: conservative iff avg <= 2, moderate-conservative iff 2 < avg <= 2.5, balanced iff 2.5 < avg <= 3.5, growth iff 3.5 < avg <= 4, aggressive iff avg > 4 or avg is NaN |
| `QuizData.ProfileMonotone` | src/lib/quizData.ts:162-167 | a higher average never gives a more cautious profile |
| `QuizData.ProfileLabels` | src/lib/quizData.ts:162-167 | the returned label is always one of the five profile strings, because the initial 'balanced' is always overwritten |
| `QuizData.PrincipalFor` | src/lib/quizData.ts:113-122 | the principal lies between 3000 and 500000, and it is the 500000 fallback exactly when the answer is missing or not one of 1-4 |
| `QuizData.ContributionFor` | src/lib/quizData.ts:124-133 | the monthly payment lies between 250 and 15000, and it is the 15000 fallback exactly when the answer is missing or not one of 1-4 |
| `QuizData.YearsFor` | src/lib/quizData.ts:135-144 | the horizon lies between 0.5 and 20 years, and it is the 20-year fallback exactly when the answer is missing or not one of 1-4 |
| `QuizData.MonthsFor` | src/lib/quizData.ts:152 | `years * 12` is always a whole number of months, one of 6, 24, 60, 120, 240 |
| `QuizData.BucketsMonotone` | src/lib/quizData.ts:113-144 | for answers 1..5, a larger answer never selects a smaller principal, a smaller payment or a shorter horizon |
| `QuizData.FutureValue` | src/lib/quizData.ts:150-156 | the closed compounding formula; its meaning is stated by `QuizData.FutureValueIsDepositSum` (it equals the sum of grown deposits), `QuizData.FutureValueAtLeastDeposits` and `QuizData.FutureValueMonotoneInRate` |
| `QuizData.FutureValueIsDepositSum` | src/lib/quizData.ts:150-156 | the closed formula equals the principal grown for every month plus each monthly payment grown for the months left after it |
| `QuizData.FutureValueAtLeastDeposits` | src/lib/quizData.ts:150-156 | with non-negative principal and payment, the future value is at least the principal plus all payments (hence non-negative) |
| `QuizData.DepositValueMonotone` | src/lib/quizData.ts:153-154 | with non-negative money in, a larger monthly growth factor never gives less |
| `QuizData.FutureValueMonotoneInRate` | src/lib/quizData.ts:150-156 | with non-negative principal and payment, the future value is non-decreasing in the annual rate |
| `QuizData.Round` | src/lib/quizData.ts:170-172 | the rounded value is the integer within half a unit, halves going up: `x - 0.5 < n <= x + 0.5` |
| `QuizData.RoundMonotone` | src/lib/quizData.ts:170-172 | rounding preserves order |
| `QuizData.ProjectionsOrdered` | src/lib/quizData.ts:146-172 | since 0.04 < 0.07 < 0.11, the three rounded projections are ordered, and the smallest is at least the rounded total deposits |
| `QuizData.CalculateScenarios` | src/lib/quizData.ts:102-175 | rounded deposits <= conservative <= moderate <= aggressive; the profile is 'aggressive' exactly when the average is NaN or above 4, so in particular for an empty map |
| `QuizData.EmptyResponses` | src/lib/quizData.ts:110-175 | an empty map takes every bucket fallback (500000 principal, 15000 a month, 240 months) and the 'aggressive' profile |
| `Compounding.Pow` | src/lib/quizData.ts:153 | `Math.pow` with a natural exponent: a positive base gives a positive power; `Compounding.PowAtLeastOne` and `Compounding.PowMonotone` give its bounds and order |
| `Compounding.PowAtLeastOne` | src/lib/quizData.ts:153 | a monthly growth factor of at least 1, raised to any number of months, is at least 1 |
| `Compounding.PowMonotone` | src/lib/quizData.ts:153 | raising to a fixed number of months preserves the order of growth factors |
| `Compounding.GeomSumAtLeastCount` | src/lib/quizData.ts:154 | `n` monthly deposits of 1, each grown by a factor of at least 1, are worth at least `n` |
| `Compounding.GeomSumMonotone` | src/lib/quizData.ts:154 | the grown deposits are non-decreasing in the growth factor |
| `Compounding.GeomSumClosedForm` | src/lib/quizData.ts:154 | `x^n - 1 == (x - 1) * (1 + x + ... + x^(n-1))`, the identity behind the annuity term |
| `QuizFlow.Quiz.constructor` | src/components/Quiz.tsx:11-12 | the quiz starts at step 0 with no answers, in a valid state |
| `QuizFlow.Quiz.CurrentQuestion` | src/components/Quiz.tsx:15 | in a valid state the shown question is one of the table's questions, so its id is a question id and is never undefined |
| `QuizFlow.Quiz.IsAnswered` | src/components/Quiz.tsx:63 | the shown question counts as answered exactly when its id is a key of the responses |
| `QuizFlow.Quiz.IsComplete` | src/components/Quiz.tsx:64 | `Object.keys(responses).length === quizQuestions.length` holds exactly when every question id has an answer, because the keys are always question ids |
| `QuizFlow.Quiz.PreviousEnabled` | src/components/Quiz.tsx:114 | "Previous" is enabled only past the first step |
| `QuizFlow.Quiz.NextEnabled` | src/components/Quiz.tsx:138 | "Next" is enabled only when the shown question is answered and it is not the last step |
| `QuizFlow.Quiz.CompleteOffered` | src/components/Quiz.tsx:125 | "View Results" is offered only on the last step, and only when every question id has an answer |
| `QuizFlow.Quiz.HandleAnswer` | src/components/Quiz.tsx:18-27 | stores the value under the shown question's id and changes no other entry; the keys stay question ids; the step advances by one unless on the last step, where it stays put; values in 1..5 keep all answers in 1..5 |
| `QuizFlow.Quiz.SelectAnswer` | src/components/Quiz.tsx:95-98 | clicking the `i`-th answer button stores `i + 1` for the shown question, so all stored answers stay in 1..5 |
| `QuizFlow.Quiz.HandleNext` | src/components/Quiz.tsx:29-33 | the step increments, except on the last step where nothing changes; the answers are untouched; the step stays in bounds |
| `QuizFlow.Quiz.HandlePrevious` | src/components/Quiz.tsx:35-39 | the step decrements, except at step 0 where nothing changes; the answers are untouched; the step stays in bounds |
| `QuizFlow.Quiz.HandleComplete` | src/components/Quiz.tsx:45 | when results are requested, the engine receives exactly 8 entries, one per question id, all in 1..5, so its average is a number in [1, 5] and never NaN |

## Left out

- Persistence through the hosted datastore (src/lib/supabase.ts) is remote I/O. It is not part of this model.
- The results dashboard (src/components/ResultsDashboard.tsx) is presentation: asynchronous loading, currency formatting and bar heights. It is not part of this model.
- The view toggle in src/App.tsx has no logic beyond setting state. It is not part of this model.
- `QuizFlow.Quiz.HandleComplete` keeps only the call to the engine. The session id taken from the clock, the two awaited saves, the `onComplete` callback, the `isLoading` flag and the error logging (src/components/Quiz.tsx:41-61) are asynchronous I/O and are left out.
- React's batching and rendering are left out. The handlers are modelled as state updates that run one after another. The progress bar value (src/components/Quiz.tsx:16) and the JSX are presentation and are also left out.
- IEEE-754 doubles are not modelled. `Math.pow`, the division and `Math.round` are exact real arithmetic. No claim is made that results match JavaScript's floating-point results bit for bit.
- `QuizData.FutureValue` requires a positive rate. The source only ever applies it to the three positive constants. At a rate of 0, JavaScript would divide 0 by 0 and produce NaN. That path is not modelled.
- Integer-like keys, which JavaScript lists before all other keys in ascending order, are not modelled: `Records` keeps insertion order for every key. No question id is integer-like.
- Response values are integers. JavaScript's `number` also allows fractions, NaN and infinities, but the quiz never stores them.
- The question `description` field is not modelled, because no question in the table has one.

/**
  The quiz's question table and the scenario engine: from the answers of one
  quiz session to three projected portfolio values, at a conservative, a
  moderate and an aggressive annual rate, and an investor-profile label.
 */
module QuizData {
  import opened Records
  import opened Compounding

  datatype Answer = Answer(text: string, value: int)

  datatype QuizQuestion = QuizQuestion(id: string, question: string, answers: seq<Answer>)

  /** The eight questions of the quiz, in the order they are asked. */
  const QuizQuestions: seq<QuizQuestion> := [
    QuizQuestion("age", "What is your age?", [
      Answer("18-25", 1),
      Answer("26-35", 2),
      Answer("36-45", 3),
      Answer("46-55", 4),
      Answer("56+", 5)]),
    QuizQuestion("initial_investment", "How much are you planning to invest initially?", [
      Answer("$1,000 - $5,000", 1),
      Answer("$5,000 - $25,000", 2),
      Answer("$25,000 - $100,000", 3),
      Answer("$100,000 - $500,000", 4),
      Answer("$500,000+", 5)]),
    QuizQuestion("time_horizon", "What is your investment time horizon?", [
      Answer("Less than 1 year", 1),
      Answer("1-3 years", 2),
      Answer("3-7 years", 3),
      Answer("7-15 years", 4),
      Answer("15+ years", 5)]),
    QuizQuestion("risk_tolerance", "How would you describe your risk tolerance?", [
      Answer("Very Conservative - Prefer safety over growth", 1),
      Answer("Conservative - Modest growth with low risk", 2),
      Answer("Moderate - Balanced growth and risk", 3),
      Answer("Aggressive - Willing to accept volatility", 4),
      Answer("Very Aggressive - Maximize growth potential", 5)]),
    QuizQuestion("market_experience", "What is your investment experience?", [
      Answer("No experience", 1),
      Answer("Beginner - Some familiarity", 2),
      Answer("Intermediate - Regular investor", 3),
      Answer("Advanced - Active trader", 4),
      Answer("Expert - Professional investor", 5)]),
    QuizQuestion("monthly_contribution", "How much can you invest monthly?", [
      Answer("$0 - $500", 1),
      Answer("$500 - $1,500", 2),
      Answer("$1,500 - $5,000", 3),
      Answer("$5,000 - $15,000", 4),
      Answer("$15,000+", 5)]),
    QuizQuestion("financial_goals", "What is your primary financial goal?", [
      Answer("Capital preservation", 1),
      Answer("Steady income", 2),
      Answer("Moderate growth", 3),
      Answer("Aggressive growth", 4),
      Answer("Wealth maximization", 5)]),
    QuizQuestion("debt_status", "What is your current debt situation?", [
      Answer("High debt (more than 50% of assets)", 1),
      Answer("Moderate debt (25-50% of assets)", 2),
      Answer("Some debt (10-25% of assets)", 3),
      Answer("Minimal debt (less than 10%)", 4),
      Answer("No debt", 5)])
  ]

  /** The answer values of a question, in the order they are shown. */
  function AnswerValues(q: QuizQuestion): seq<int>
  {
    seq(|q.answers|, i requires 0 <= i < |q.answers| => q.answers[i].value)
  }

  /** The identifiers of the given questions. */
  function IdsOf(qs: seq<QuizQuestion>): set<string>
  {
    set q | q in qs :: q.id
  }

  /** The identifiers of all questions. */
  function QuestionIds(): set<string>
  {
    IdsOf(QuizQuestions)
  }

  /** Eight questions, no identifier twice, and every question offers the answers 1 to 5 in order. */
  lemma QuestionTable()
    ensures |QuizQuestions| == 8
    ensures forall i, j :: 0 <= i < j < |QuizQuestions| ==> QuizQuestions[i].id != QuizQuestions[j].id
    ensures forall q :: q in QuizQuestions ==> AnswerValues(q) == [1, 2, 3, 4, 5]
  {
  }

  /** The `index`-th answer of any question has the value `index + 1`. */
  lemma AnswerValueAt(q: QuizQuestion, index: nat)
    requires q in QuizQuestions && index < |q.answers|
    ensures |q.answers| == 5 && q.answers[index].value == index + 1
  {
    QuestionTable();
    assert AnswerValues(q)[index] == q.answers[index].value;
  }

  /** Questions with distinct identifiers have as many identifiers as questions. */
  lemma {:induction false} IdCount(qs: seq<QuizQuestion>)
    requires forall i, j :: 0 <= i < j < |qs| ==> qs[i].id != qs[j].id
    ensures |IdsOf(qs)| == |qs|
  {
    if qs != [] {
      IdCount(qs[1..]);
      assert IdsOf(qs) == IdsOf(qs[1..]) + {qs[0].id};
      assert qs[0].id !in IdsOf(qs[1..]);
    }
  }

  /** There are as many question identifiers as questions. */
  lemma QuestionIdCount()
    ensures |QuestionIds()| == |QuizQuestions| == 8
  {
    QuestionTable();
    IdCount(QuizQuestions);
  }

  // ---------------------------------------------------------------------
  // Scoring

  /** A JavaScript number that is either NaN or a real value. */
  datatype Score = NaN | Num(value: real)

  /** `s <= bound` in JavaScript: false whenever `s` is NaN. */
  predicate AtMost(s: Score, bound: real)
  {
    s.Num? && s.value <= bound
  }

  /** The mean of every value in the responses; `0 / 0` (NaN) when there are none. */
  function AvgScore(responses: Record): (avg: Score)
    ensures avg.NaN? <==> |responses| == 0
    ensures avg.Num? ==> avg.value * |responses| as real == Sum(responses) as real
  {
    if |responses| == 0 then NaN
    else Num(Sum(responses) as real / |responses| as real)
  }

  /** When every answer lies in `lo..hi`, so does their mean. */
  lemma {:induction false} AvgScoreBounds(responses: Record, lo: int, hi: int)
    requires |responses| > 0
    requires forall e :: e in responses ==> lo <= e.value <= hi
    ensures AvgScore(responses).Num?
    ensures lo as real <= AvgScore(responses).value <= hi as real
  {
    SumBounds(responses, lo, hi);
    var n := |responses| as real;
    var avg := AvgScore(responses).value;
    assert avg * n == Sum(responses) as real;
    assert lo as real * n <= avg * n <= hi as real * n;
  }

  datatype Profile = Conservative | ModerateConservative | Balanced | Growth | Aggressive
  {
    /** The string the engine returns. */
    function Label(): string
    {
      match this
      case Conservative => "conservative"
      case ModerateConservative => "moderate-conservative"
      case Balanced => "balanced"
      case Growth => "growth"
      case Aggressive => "aggressive"
    }

    /** Position from the most cautious (0) to the most aggressive (4). */
    function Rank(): nat
    {
      match this
      case Conservative => 0
      case ModerateConservative => 1
      case Balanced => 2
      case Growth => 3
      case Aggressive => 4
    }
  }

  /** First-match thresholds on the average score. */
  function ProfileFor(avg: Score): (profile: Profile)
    ensures avg.NaN? ==> profile == Aggressive
  {
    if AtMost(avg, 2.0) then Conservative
    else if AtMost(avg, 2.5) then ModerateConservative
    else if AtMost(avg, 3.5) then Balanced
    else if AtMost(avg, 4.0) then Growth
    else Aggressive
  }

  /** Each profile covers one band of averages; NaN falls through to the last. */
  lemma ProfileBands(avg: Score)
    ensures ProfileFor(avg) == Conservative <==> avg.Num? && avg.value <= 2.0
    ensures ProfileFor(avg) == ModerateConservative <==> avg.Num? && 2.0 < avg.value <= 2.5
    ensures ProfileFor(avg) == Balanced <==> avg.Num? && 2.5 < avg.value <= 3.5
    ensures ProfileFor(avg) == Growth <==> avg.Num? && 3.5 < avg.value <= 4.0
    ensures ProfileFor(avg) == Aggressive <==> avg.NaN? || avg.value > 4.0
  {
  }

  /** A higher average never yields a more cautious profile. */
  lemma ProfileMonotone(a: real, b: real)
    requires a <= b
    ensures ProfileFor(Num(a)).Rank() <= ProfileFor(Num(b)).Rank()
  {
  }

  /** The returned label is always one of the five profile strings. */
  lemma ProfileLabels(avg: Score)
    ensures ProfileFor(avg).Label() in
      {"conservative", "moderate-conservative", "balanced", "growth", "aggressive"}
  {
  }

  // ---------------------------------------------------------------------
  // Bucket tables

  /** `initial_investment`: the principal, in dollars. */
  function PrincipalFor(code: Option<int>): (principal: real)
    ensures 3000.0 <= principal <= 500000.0
    ensures principal == 500000.0 <==> code !in {Some(1), Some(2), Some(3), Some(4)}
  {
    if code == Some(1) then 3000.0
    else if code == Some(2) then 15000.0
    else if code == Some(3) then 62500.0
    else if code == Some(4) then 300000.0
    else 500000.0
  }

  /** `monthly_contribution`: the monthly payment, in dollars. */
  function ContributionFor(code: Option<int>): (payment: real)
    ensures 250.0 <= payment <= 15000.0
    ensures payment == 15000.0 <==> code !in {Some(1), Some(2), Some(3), Some(4)}
  {
    if code == Some(1) then 250.0
    else if code == Some(2) then 1000.0
    else if code == Some(3) then 3250.0
    else if code == Some(4) then 10000.0
    else 15000.0
  }

  /** `time_horizon`: the duration, in years. */
  function YearsFor(code: Option<int>): (years: real)
    ensures 0.5 <= years <= 20.0
    ensures years == 20.0 <==> code !in {Some(1), Some(2), Some(3), Some(4)}
  {
    if code == Some(1) then 0.5
    else if code == Some(2) then 2.0
    else if code == Some(3) then 5.0
    else if code == Some(4) then 10.0
    else 20.0
  }

  /** `years * 12`, which is always a whole, positive number of months. */
  function MonthsFor(code: Option<int>): (months: nat)
    ensures months as real == YearsFor(code) * 12.0
    ensures months in {6, 24, 60, 120, 240}
  {
    (YearsFor(code) * 12.0).Floor
  }

  /** A larger answer code never selects a smaller amount or a shorter horizon. */
  lemma BucketsMonotone(a: int, b: int)
    requires 1 <= a <= b <= 5
    ensures PrincipalFor(Some(a)) <= PrincipalFor(Some(b))
    ensures ContributionFor(Some(a)) <= ContributionFor(Some(b))
    ensures MonthsFor(Some(a)) <= MonthsFor(Some(b))
  {
  }

  // ---------------------------------------------------------------------
  // Projection

  const ConservativeRate: real := 0.04
  const ModerateRate: real := 0.07
  const AggressiveRate: real := 0.11

  /** Monthly compounding of the principal plus an ordinary annuity of monthly payments. */
  function FutureValue(principal: real, rate: real, months: nat, monthlyPayment: real): real
    requires rate > 0.0
  {
    var monthlyRate := rate / 12.0;
    var compoundedPrincipal := principal * Pow(1.0 + monthlyRate, months);
    var annuityValue := monthlyPayment * (Pow(1.0 + monthlyRate, months) - 1.0) / monthlyRate;
    compoundedPrincipal + annuityValue
  }

  /** The closed form equals the principal grown for every month plus each
      payment grown for the months left after it is paid. */
  lemma FutureValueIsDepositSum(principal: real, rate: real, months: nat, monthlyPayment: real)
    requires rate > 0.0
    ensures FutureValue(principal, rate, months, monthlyPayment)
      == DepositValue(principal, 1.0 + rate / 12.0, months, monthlyPayment)
  {
    var i := rate / 12.0;
    var x := 1.0 + i;
    var p, g := Pow(x, months), GeomSum(x, months);
    assert FutureValue(principal, rate, months, monthlyPayment)
      == principal * p + monthlyPayment * (p - 1.0) / i;
    assert DepositValue(principal, x, months, monthlyPayment) == principal * p + monthlyPayment * g;
    GeomSumClosedForm(x, months);
    assert p - 1.0 == i * g;
    AnnuityTerm(monthlyPayment, p, i, g);
  }

  /** The annuity term of the closed formula is the payment times the geometric sum. */
  lemma AnnuityTerm(payment: real, p: real, i: real, g: real)
    requires i != 0.0 && p - 1.0 == i * g
    ensures payment * (p - 1.0) / i == payment * g
  {
    MulRegroup(payment, i, g);
    DivCancel(payment * g, i);
  }

  /** Regrouping a product of three factors. */
  lemma MulRegroup(a: real, b: real, c: real)
    ensures a * (b * c) == (a * c) * b
  {
  }

  /** The money put in: the principal plus every monthly payment. */
  function TotalDeposits(principal: real, months: nat, monthlyPayment: real): real
  {
    principal + months as real * monthlyPayment
  }

  /** With non-negative money in, the projection is at least the principal plus every payment. */
  lemma FutureValueAtLeastDeposits(principal: real, rate: real, months: nat, monthlyPayment: real)
    requires rate > 0.0
    requires principal >= 0.0 && monthlyPayment >= 0.0
    ensures FutureValue(principal, rate, months, monthlyPayment) >= TotalDeposits(principal, months, monthlyPayment)
  {
    var x := 1.0 + rate / 12.0;
    FutureValueIsDepositSum(principal, rate, months, monthlyPayment);
    PowAtLeastOne(x, months);
    GeomSumAtLeastCount(x, months);
    MulMonotone(principal, 1.0, Pow(x, months));
    MulMonotone(monthlyPayment, months as real, GeomSum(x, months));
  }

  /** Dividing by the factor just multiplied in gives the original value back. */
  lemma DivCancel(a: real, d: real)
    requires d != 0.0
    ensures a * d / d == a
  {
  }

  /** Multiplying by a non-negative factor preserves order. */
  lemma MulMonotone(k: real, a: real, b: real)
    requires k >= 0.0 && a <= b
    ensures k * a <= k * b
  {
    assert k * b - k * a == k * (b - a);
  }

  /** The money in, valued after `months` months of growth by `x` per month:
      the principal grown for every month plus each payment grown for the
      months left after it is paid. */
  function DepositValue(principal: real, x: real, months: nat, monthlyPayment: real): real
  {
    principal * Pow(x, months) + monthlyPayment * GeomSum(x, months)
  }

  /** With non-negative money in, faster growth never yields less. */
  lemma DepositValueMonotone(principal: real, x: real, y: real, months: nat, monthlyPayment: real)
    requires 1.0 <= x <= y
    requires principal >= 0.0 && monthlyPayment >= 0.0
    ensures DepositValue(principal, x, months, monthlyPayment) <= DepositValue(principal, y, months, monthlyPayment)
  {
    PowMonotone(x, y, months);
    GeomSumMonotone(x, y, months);
    MulMonotone(principal, Pow(x, months), Pow(y, months));
    MulMonotone(monthlyPayment, GeomSum(x, months), GeomSum(y, months));
  }

  /** With non-negative money in, a higher rate never yields less. */
  lemma FutureValueMonotoneInRate(principal: real, r1: real, r2: real, months: nat, monthlyPayment: real)
    requires 0.0 < r1 <= r2
    requires principal >= 0.0 && monthlyPayment >= 0.0
    ensures FutureValue(principal, r1, months, monthlyPayment) <= FutureValue(principal, r2, months, monthlyPayment)
  {
    FutureValueIsDepositSum(principal, r1, months, monthlyPayment);
    FutureValueIsDepositSum(principal, r2, months, monthlyPayment);
    DepositValueMonotone(principal, 1.0 + r1 / 12.0, 1.0 + r2 / 12.0, months, monthlyPayment);
  }

  /** `Math.round`: the nearest integer, halves rounded up. */
  function Round(x: real): (n: int)
    ensures x - 0.5 < n as real <= x + 0.5
  {
    (x + 0.5).Floor
  }

  /** Rounding preserves order. */
  lemma RoundMonotone(x: real, y: real)
    requires x <= y
    ensures Round(x) <= Round(y)
  {
  }

  datatype Scenarios = Scenarios(conservative: int, moderate: int, aggressive: int, profile: Profile)

  /** What the session puts in, by its bucket answers. */
  function Deposits(responses: Record): real
  {
    TotalDeposits(
      PrincipalFor(Get(responses, "initial_investment")),
      MonthsFor(Get(responses, "time_horizon")),
      ContributionFor(Get(responses, "monthly_contribution")))
  }

  /** The three rounded projections are ordered by rate, and the smallest is at
      least the rounded deposits. */
  lemma ProjectionsOrdered(principal: real, months: nat, monthlyPayment: real)
    requires principal >= 0.0 && monthlyPayment >= 0.0
    ensures Round(TotalDeposits(principal, months, monthlyPayment))
      <= Round(FutureValue(principal, ConservativeRate, months, monthlyPayment))
      <= Round(FutureValue(principal, ModerateRate, months, monthlyPayment))
      <= Round(FutureValue(principal, AggressiveRate, months, monthlyPayment))
  {
    var conservative := FutureValue(principal, ConservativeRate, months, monthlyPayment);
    var moderate := FutureValue(principal, ModerateRate, months, monthlyPayment);
    var aggressive := FutureValue(principal, AggressiveRate, months, monthlyPayment);
    FutureValueAtLeastDeposits(principal, ConservativeRate, months, monthlyPayment);
    FutureValueMonotoneInRate(principal, ConservativeRate, ModerateRate, months, monthlyPayment);
    FutureValueMonotoneInRate(principal, ModerateRate, AggressiveRate, months, monthlyPayment);
    RoundMonotone(TotalDeposits(principal, months, monthlyPayment), conservative);
    RoundMonotone(conservative, moderate);
    RoundMonotone(moderate, aggressive);
  }

  function CalculateScenarios(responses: Record): (s: Scenarios)
    ensures Round(Deposits(responses)) <= s.conservative <= s.moderate <= s.aggressive
    ensures s.profile == Aggressive <==> AvgScore(responses).NaN? || AvgScore(responses).value > 4.0
    ensures |responses| == 0 ==> s.profile == Aggressive
  {
    var avgScore := AvgScore(responses);
    var initialInvestment := PrincipalFor(Get(responses, "initial_investment"));
    var monthlyContribution := ContributionFor(Get(responses, "monthly_contribution"));
    var months := MonthsFor(Get(responses, "time_horizon"));
    var conservative := FutureValue(initialInvestment, ConservativeRate, months, monthlyContribution);
    var moderate := FutureValue(initialInvestment, ModerateRate, months, monthlyContribution);
    var aggressive := FutureValue(initialInvestment, AggressiveRate, months, monthlyContribution);
    var s := Scenarios(Round(conservative), Round(moderate), Round(aggressive), ProfileFor(avgScore));
    ProjectionsOrdered(initialInvestment, months, monthlyContribution);
    assert Round(Deposits(responses)) <= s.conservative <= s.moderate <= s.aggressive;
    ProfileBands(avgScore);
    s
  }

  /** An empty response map takes every bucket's fallback and, its average
      being NaN, the last profile. */
  lemma EmptyResponses()
    ensures CalculateScenarios([]) == Scenarios(
      Round(FutureValue(500000.0, 0.04, 240, 15000.0)),
      Round(FutureValue(500000.0, 0.07, 240, 15000.0)),
      Round(FutureValue(500000.0, 0.11, 240, 15000.0)),
      Aggressive)
  {
  }
}

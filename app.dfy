/**
 * The computations of the app shell: the damped recursive forecast and the
 * deficit advice built on it, the spending entropy, the per-category and
 * per-source totals behind the charts, the calendar's month navigation and
 * the `YYYY-MM-DD` date format.
 *
 * `Math.log` is the parameter `ln`; the calendar's "today" is supplied by the
 * caller, as are the year, month and day a `Date` would report.
 */
module App {
  import opened Common
  import Strings
  import Budget

  /* ---------- Forecast ---------- */

  /** `predictNextMonth`: five percent growth. */
  function PredictNextMonth(data: real): (r: real)
    ensures data >= 0.0 ==> data <= r
    ensures data <= 0.0 ==> r <= data
  {
    data * 1.05
  }

  function Abs(x: real): real { if x < 0.0 then -x else x }

  /**
   * `recursivePredict(data, n, eps, prev)`: after `n` steps of damping (0.7 of the value, 0.3 of
   * the forecast of its grown successor) or as soon as two successive forecasts are within `eps`.
   * Whatever the depth, the forecast lies between the value and its one-step growth.
   */
  function RecursivePredict(data: real, n: int, eps: real, prev: Option<real>): (r: real)
    ensures data >= 0.0 ==> data <= r <= PredictNextMonth(data)
    ensures data <= 0.0 ==> PredictNextMonth(data) <= r <= data
    decreases if n <= 0 then 0 else n
  {
    if n <= 0 then data
    else
      var next := PredictNextMonth(data);
      if prev.Some? && Abs(next - prev.value) < eps then next
      else 0.7 * data + 0.3 * RecursivePredict(next, n - 1, eps, Some(data))
  }

  /** `recursivePredict(avg)` with its default depth 5, tolerance 0.01 and no previous value. */
  function Forecast(avg: real): (r: real)
    ensures avg >= 0.0 ==> avg <= r <= PredictNextMonth(avg)
    ensures avg <= 0.0 ==> PredictNextMonth(avg) <= r <= avg
  {
    RecursivePredict(avg, 5, 0.01, None)
  }

  /** The forecast of nothing is nothing. */
  lemma ForecastOfZero(n: int, eps: real, prev: Option<real>)
    ensures RecursivePredict(0.0, n, eps, prev) == 0.0
  {
  }

  /** The early stop never fires on the first call; for a small average it fires on the second,
      because the two forecasts 1.05·(1.05·avg) and avg are then less than 0.01 apart. */
  lemma ForecastNearZero(avg: real)
    requires -0.09 <= avg <= 0.09
    ensures Forecast(avg) == 1.03075 * avg
  {
    var next := PredictNextMonth(avg);
    assert Abs(PredictNextMonth(next) - avg) < 0.01;
    assert RecursivePredict(next, 4, 0.01, Some(avg)) == PredictNextMonth(next);
  }

  /** `slice(-5)`: the last five records, or all of them when there are fewer. */
  function Recent<T>(s: seq<T>): (r: seq<T>)
    ensures |r| == if |s| < 5 then |s| else 5
    ensures r == s[|s| - |r|..]
  {
    if |s| <= 5 then s else s[|s| - 5..]
  }

  /** The mean of `f` over the last five records, or 0 when there are none. */
  function RecentMean<T>(s: seq<T>, f: T -> real): (r: real)
    ensures s == [] ==> r == 0.0
    ensures s != [] ==> r * (|Recent(s)| as real) == Sum(Recent(s), f)
  {
    var recent := Recent(s);
    if |recent| == 0 then 0.0 else Sum(recent, f) / (|recent| as real)
  }

  /** The mean lies within any bounds on the values it averages. */
  lemma RecentMeanBounds<T>(s: seq<T>, f: T -> real, lo: real, hi: real)
    requires forall i :: 0 <= i < |s| ==> lo <= f(s[i]) <= hi
    requires lo <= 0.0 <= hi
    ensures lo <= RecentMean(s, f) <= hi
  {
    var recent := Recent(s);
    if |recent| > 0 {
      var total, n := Sum(recent, f), |recent| as real;
      RecentSumBounds(s, f, lo, hi);
      DivisionBounds(total, n, lo, hi);
      assert RecentMean(s, f) == total / n;
    } else {
      assert RecentMean(s, f) == 0.0;
    }
  }

  lemma RecentSumBounds<T>(s: seq<T>, f: T -> real, lo: real, hi: real)
    requires forall i :: 0 <= i < |s| ==> lo <= f(s[i]) <= hi
    ensures ScaledBetween(Sum(Recent(s), f), |Recent(s)| as real, lo, hi)
  {
    var recent := Recent(s);
    forall i | 0 <= i < |recent| ensures lo <= f(recent[i]) <= hi {
      assert recent[i] == s[|s| - |recent| + i];
    }
    SumBounds(recent, f, lo, hi);
  }

  lemma DivisionBounds(total: real, n: real, lo: real, hi: real)
    requires n > 0.0 && ScaledBetween(total, n, lo, hi)
    ensures lo <= total / n <= hi
  {
  }

  /** The suggestion `updatePredictionUI` shows. */
  datatype Advice = DeficitRisk | Healthy

  /** The text shown for each suggestion. */
  function AdviceText(a: Advice): string
  {
    match a
    case DeficitRisk => "⚠️ Budget deficit risk, adjust spending"
    case Healthy => "Budget healthy, keep it up!"
  }

  /** The forecasts and suggestion `updatePredictionUI` computes. */
  datatype Prediction = Prediction(income: real, expense: real, advice: Advice)

  function Predict(income: seq<Budget.IncomeRecord>, expenses: seq<Budget.ExpenseRecord>): (p: Prediction)
    ensures p.advice == DeficitRisk <==> p.income - p.expense < 0.0
  {
    var predictedIncome := Forecast(RecentMean(income, Budget.IncomeAmount));
    var predictedExpense := Forecast(RecentMean(expenses, Budget.ExpenseCost));
    Prediction(predictedIncome, predictedExpense,
               if predictedIncome - predictedExpense < 0.0 then DeficitRisk else Healthy)
  }

  /** The advice is decided by the averages alone whenever they are far enough apart: an income
      average at least 1.05 times the expense average is healthy, and one whose 1.05-fold
      growth is still below the expense average is a deficit risk. */
  lemma AdviceFromAverages(income: seq<Budget.IncomeRecord>, expenses: seq<Budget.ExpenseRecord>)
    requires forall i :: 0 <= i < |income| ==> income[i].amount >= 0.0
    requires forall i :: 0 <= i < |expenses| ==> Budget.ExpenseCost(expenses[i]) >= 0.0
    ensures var avgIncome := RecentMean(income, Budget.IncomeAmount);
            var avgExpense := RecentMean(expenses, Budget.ExpenseCost);
            && (avgIncome >= PredictNextMonth(avgExpense) ==> Predict(income, expenses).advice == Healthy)
            && (PredictNextMonth(avgIncome) < avgExpense ==> Predict(income, expenses).advice == DeficitRisk)
  {
    var hiI := MaxOf(income, Budget.IncomeAmount);
    var hiE := MaxOf(expenses, Budget.ExpenseCost);
    RecentMeanBounds(income, Budget.IncomeAmount, 0.0, hiI);
    RecentMeanBounds(expenses, Budget.ExpenseCost, 0.0, hiE);
  }

  /** An upper bound of `f` over `s` that is at least 0. */
  function MaxOf<T>(s: seq<T>, f: T -> real): (m: real)
    ensures m >= 0.0
    ensures forall i :: 0 <= i < |s| ==> f(s[i]) <= m
  {
    if s == [] then 0.0
    else
      var rest := MaxOf(s[1..], f);
      assert forall i :: 1 <= i < |s| ==> s[i] == s[1..][i - 1];
      if f(s[0]) > rest then f(s[0]) else rest
  }

  /* ---------- Budget totals ---------- */

  /** `updateBudget`'s total income, `incomeRecords.reduce((sum, r) => sum + r.amount, 0)`;
      never negative when no amount is. */
  function TotalIncome(s: seq<Budget.IncomeRecord>): (t: real)
    ensures (forall i :: 0 <= i < |s| ==> s[i].amount >= 0.0) ==> t >= 0.0
  {
    if forall i :: 0 <= i < |s| ==> s[i].amount >= 0.0 then
      SumNonNegative(s, Budget.IncomeAmount);
      Sum(s, Budget.IncomeAmount)
    else Sum(s, Budget.IncomeAmount)
  }

  /** `updateBudget`'s total expense, the sum of `price * quantity`; never negative when no
      record's cost is. */
  function TotalExpense(s: seq<Budget.ExpenseRecord>): (t: real)
    ensures (forall i :: 0 <= i < |s| ==> Budget.ExpenseCost(s[i]) >= 0.0) ==> t >= 0.0
  {
    if forall i :: 0 <= i < |s| ==> Budget.ExpenseCost(s[i]) >= 0.0 then
      SumNonNegative(s, Budget.ExpenseCost);
      Sum(s, Budget.ExpenseCost)
    else Sum(s, Budget.ExpenseCost)
  }

  /* ---------- Spending entropy ---------- */

  /** The value `calculateEntropy` gives a record: `price * quantity` when the price is truthy,
      otherwise `amount`, which an expense record does not have (so the value is NaN). */
  function EntropyValue(r: Budget.ExpenseRecord): Number
  {
    if r.price != 0.0 then Num(Budget.ExpenseCost(r)) else NaN
  }

  /** The first `reduce`: a sum in which one NaN makes the whole total NaN. */
  function EntropyTotal(records: seq<Budget.ExpenseRecord>): (total: Number)
    ensures total.Num? <==> forall i :: 0 <= i < |records| ==> records[i].price != 0.0
    ensures total.Num? ==> total.value == TotalExpense(records)
  {
    if records == [] then Num(0.0)
    else
      var prefix := records[..|records| - 1];
      assert forall i :: 0 <= i < |prefix| ==> prefix[i] == records[i];
      match (EntropyTotal(prefix), EntropyValue(records[|records| - 1]))
      case (Num(t), Num(v)) => Num(t + v)
      case _ => NaN
  }

  /** `p * ln(p)` for the share `p` of one record in the total, or 0 when `p` is not positive. */
  function EntropyTerm(total: real, ln: real -> real): Budget.ExpenseRecord -> real
  {
    (r: Budget.ExpenseRecord) =>
      var p := if total == 0.0 then 0.0 else Budget.ExpenseCost(r) / total;
      if p > 0.0 then p * ln(p) else 0.0
  }

  /** `calculateEntropy(expenseRecords)`: 0 when the total is 0 or NaN (`!total`), otherwise the
      Shannon entropy `-Σ p ln p` of the records' shares of the total. */
  function CalculateEntropy(records: seq<Budget.ExpenseRecord>, ln: real -> real): (h: real)
    ensures EntropyTotal(records).NaN? ==> h == 0.0
    ensures TotalExpense(records) == 0.0 ==> h == 0.0
    ensures EntropyTotal(records).Num? && TotalExpense(records) != 0.0 ==>
              h == -Sum(records, EntropyTerm(TotalExpense(records), ln))
  {
    match EntropyTotal(records)
    case NaN => 0.0
    case Num(total) => if total == 0.0 then 0.0 else -Sum(records, EntropyTerm(total, ln))
  }

  /** With non-negative record values, every share lies in [0, 1], so the entropy is never
      negative when ln is non-positive on (0, 1]. */
  lemma EntropyNonNegative(records: seq<Budget.ExpenseRecord>, ln: real -> real)
    requires LnNonPositiveOnUnit(ln)
    requires forall i :: 0 <= i < |records| ==> Budget.ExpenseCost(records[i]) >= 0.0
    ensures CalculateEntropy(records, ln) >= 0.0
  {
    var total := TotalExpense(records);
    if EntropyTotal(records).Num? && total != 0.0 {
      var term := EntropyTerm(total, ln);
      forall i | 0 <= i < |records| ensures term(records[i]) <= 0.0 {
        EntropyTermNonPositive(records, i, ln);
      }
      SumBounds(records, term, -1.0 * MaxOf(records, x => -term(x)), 0.0);
      assert Sum(records, term) <= 0.0;
    }
  }

  /** One record's share p lies in [0, 1], so its term p·ln p is not positive. */
  lemma EntropyTermNonPositive(records: seq<Budget.ExpenseRecord>, i: nat, ln: real -> real)
    requires LnNonPositiveOnUnit(ln)
    requires forall j :: 0 <= j < |records| ==> Budget.ExpenseCost(records[j]) >= 0.0
    requires i < |records| && TotalExpense(records) != 0.0
    ensures EntropyTerm(TotalExpense(records), ln)(records[i]) <= 0.0
  {
    var total := TotalExpense(records);
    SumMember(records, Budget.ExpenseCost, i);
    assert 0.0 <= Budget.ExpenseCost(records[i]) <= total;
    DivisionBounds(Budget.ExpenseCost(records[i]), total, 0.0, 1.0);
    var p := Budget.ExpenseCost(records[i]) / total;
    if p > 0.0 {
      assert ln(p) <= 0.0;
      ProductNonPositive(p, ln(p));
    }
  }

  /** With non-negative values, every value is at most the total. */
  lemma {:induction false} SumMember<T>(s: seq<T>, f: T -> real, i: nat)
    requires i < |s|
    requires forall j :: 0 <= j < |s| ==> f(s[j]) >= 0.0
    ensures f(s[i]) <= Sum(s, f)
  {
    var n := |s| - 1;
    var prefix := s[..n];
    assert forall j :: 0 <= j < |prefix| ==> prefix[j] == s[j];
    SumBounds(prefix, f, 0.0, MaxOf(prefix, f));
    if i < n {
      SumMember(prefix, f, i);
    }
  }

  /* ---------- Chart totals ---------- */

  /**
   * The `forEach` loops of `updateCharts`: `groups[key(r)] = (groups[key(r)] || 0) + value(r)`.
   * Exactly the keys that occur get an entry, holding the sum of the values under that key.
   */
  method GroupTotals<T>(records: seq<T>, key: T -> string, value: T -> real)
    returns (groups: map<string, real>)
    ensures forall k :: k in groups <==> exists i :: 0 <= i < |records| && key(records[i]) == k
    ensures forall k :: k in groups ==> groups[k] == SumWhere(records, key, value, k)
  {
    groups := map[];
    for n := 0 to |records|
      invariant GroupsOf(groups, records[..n], key, value)
    {
      var r := records[n];
      var previous := if key(r) in groups then groups[key(r)] else 0.0;
      GroupStep(groups, records[..n], r, key, value);
      groups := groups[key(r) := previous + value(r)];
      assert records[..n + 1] == records[..n] + [r];
    }
    assert records[..|records|] == records;
  }

  /** `groups` holds, for exactly the keys occurring in `prefix`, the sum of their values. */
  ghost predicate GroupsOf<T>(groups: map<string, real>, prefix: seq<T>, key: T -> string, value: T -> real)
  {
    KeysOccurring(groups, prefix, key) && SumsPerKey(groups, prefix, key, value)
  }

  /** The map has an entry exactly for the keys that occur in `prefix`. */
  ghost predicate KeysOccurring<T>(groups: map<string, real>, prefix: seq<T>, key: T -> string)
  {
    forall k :: k in groups <==> exists i :: 0 <= i < |prefix| && key(prefix[i]) == k
  }

  /** Each entry is the sum of its key's values, and a key without an entry sums to 0. */
  ghost predicate SumsPerKey<T>(groups: map<string, real>, prefix: seq<T>, key: T -> string, value: T -> real)
  {
    && (forall k :: k in groups ==> groups[k] == SumWhere(prefix, key, value, k))
    && (forall k :: k !in groups ==> SumWhere(prefix, key, value, k) == 0.0)
  }

  /** One iteration of the `forEach`: adding a record's value under its key keeps `GroupsOf`. */
  lemma GroupStep<T>(groups: map<string, real>, prefix: seq<T>, r: T, key: T -> string, value: T -> real)
    requires GroupsOf(groups, prefix, key, value)
    ensures GroupsOf(groups[key(r) := (if key(r) in groups then groups[key(r)] else 0.0) + value(r)],
                     prefix + [r], key, value)
  {
    GroupKeysStep(groups, prefix, r, key, (if key(r) in groups then groups[key(r)] else 0.0) + value(r));
    GroupSumsStep(groups, prefix, r, key, value);
  }

  lemma GroupKeysStep<T>(groups: map<string, real>, prefix: seq<T>, r: T, key: T -> string, v: real)
    requires KeysOccurring(groups, prefix, key)
    ensures KeysOccurring(groups[key(r) := v], prefix + [r], key)
  {
    var next := groups[key(r) := v];
    var longer := prefix + [r];
    forall k | k in next ensures exists i :: 0 <= i < |longer| && key(longer[i]) == k {
      if k == key(r) {
        assert key(longer[|prefix|]) == k;
      } else {
        var i :| 0 <= i < |prefix| && key(prefix[i]) == k;
        assert key(longer[i]) == k;
      }
    }
    forall k | exists i :: 0 <= i < |longer| && key(longer[i]) == k ensures k in next {
      var i :| 0 <= i < |longer| && key(longer[i]) == k;
      if i < |prefix| {
        assert key(prefix[i]) == k;
      }
    }
  }

  lemma GroupSumsStep<T>(groups: map<string, real>, prefix: seq<T>, r: T, key: T -> string, value: T -> real)
    requires SumsPerKey(groups, prefix, key, value)
    ensures SumsPerKey(groups[key(r) := (if key(r) in groups then groups[key(r)] else 0.0) + value(r)],
                       prefix + [r], key, value)
  {
    forall k ensures SumWhere(prefix + [r], key, value, k)
                  == SumWhere(prefix, key, value, k) + (if key(r) == k then value(r) else 0.0) {
      SumWhereAppend(prefix, r, key, value, k);
    }
  }

  /** The sum of a map's values over a list of its keys. */
  function SumGroups(groups: map<string, real>, keys: seq<string>): real
    requires forall i :: 0 <= i < |keys| ==> keys[i] in groups
  {
    if keys == [] then 0.0 else groups[keys[0]] + SumGroups(groups, keys[1..])
  }

  /** The groups partition the total: summed over all their keys, once each, they give the
      sum of every record's value. */
  lemma GroupsPartitionTotal<T>(records: seq<T>, key: T -> string, value: T -> real,
                                groups: map<string, real>, keys: seq<string>)
    requires forall k :: k in groups <==> exists i :: 0 <= i < |records| && key(records[i]) == k
    requires forall k :: k in groups ==> groups[k] == SumWhere(records, key, value, k)
    requires forall i, j :: 0 <= i < j < |keys| ==> keys[i] != keys[j]
    requires forall k :: k in groups <==> k in keys
    ensures SumGroups(groups, keys) == Sum(records, value)
  {
    GroupsAreKeySums(records, key, value, groups, keys);
    forall i | 0 <= i < |records| ensures key(records[i]) in keys {
      assert key(records[i]) in groups;
    }
    PartitionByKey(records, key, value, keys);
  }

  lemma {:induction false} GroupsAreKeySums<T>(records: seq<T>, key: T -> string, value: T -> real,
                                               groups: map<string, real>, keys: seq<string>)
    requires forall k :: k in groups ==> groups[k] == SumWhere(records, key, value, k)
    requires forall i :: 0 <= i < |keys| ==> keys[i] in groups
    ensures SumGroups(groups, keys) == SumOverKeys(records, key, value, keys)
  {
    if keys != [] {
      GroupsAreKeySums(records, key, value, groups, keys[1..]);
    }
  }

  /** The expense chart's slices add up to the total expense `updateBudget` shows. */
  method ExpenseCategories(expenses: seq<Budget.ExpenseRecord>) returns (groups: map<string, real>)
    ensures forall k :: k in groups ==> groups[k] == Budget.CategoryTotal(expenses, k)
    ensures forall keys: seq<string> ::
              (forall i, j :: 0 <= i < j < |keys| ==> keys[i] != keys[j]) &&
              (forall k :: k in groups <==> k in keys)
              ==> SumGroups(groups, keys) == TotalExpense(expenses)
  {
    groups := GroupTotals(expenses, Budget.ExpenseCategory, Budget.ExpenseCost);
    forall keys: seq<string> | (forall i, j :: 0 <= i < j < |keys| ==> keys[i] != keys[j]) &&
                               (forall k :: k in groups <==> k in keys)
      ensures SumGroups(groups, keys) == TotalExpense(expenses)
    {
      GroupsPartitionTotal(expenses, Budget.ExpenseCategory, Budget.ExpenseCost, groups, keys);
    }
  }


  /** The income chart's slices add up to the total income `updateBudget` uses. */
  method IncomeSources(income: seq<Budget.IncomeRecord>) returns (groups: map<string, real>)
    ensures forall k :: k in groups ==> groups[k] == SumWhere(income, Budget.IncomeSource, Budget.IncomeAmount, k)
    ensures forall keys: seq<string> ::
              (forall i, j :: 0 <= i < j < |keys| ==> keys[i] != keys[j]) &&
              (forall k :: k in groups <==> k in keys)
              ==> SumGroups(groups, keys) == TotalIncome(income)
  {
    groups := GroupTotals(income, Budget.IncomeSource, Budget.IncomeAmount);
    forall keys: seq<string> | (forall i, j :: 0 <= i < j < |keys| ==> keys[i] != keys[j]) &&
                               (forall k :: k in groups <==> k in keys)
      ensures SumGroups(groups, keys) == TotalIncome(income)
    {
      GroupsPartitionTotal(income, Budget.IncomeSource, Budget.IncomeAmount, groups, keys);
    }
  }

  /* ---------- Calendar ---------- */

  /** The month before `(year, month)`, months numbered 0..11 as `Date.getMonth` does. */
  function MonthBefore(year: int, month: int): (r: (int, int))
    requires 0 <= month <= 11
    ensures 0 <= r.1 <= 11
    ensures 12 * r.0 + r.1 == 12 * year + month - 1
  {
    if month - 1 < 0 then (year - 1, 11) else (year, month - 1)
  }

  /** The month after `(year, month)`. */
  function MonthAfter(year: int, month: int): (r: (int, int))
    requires 0 <= month <= 11
    ensures 0 <= r.1 <= 11
    ensures 12 * r.0 + r.1 == 12 * year + month + 1
  {
    if month + 1 > 11 then (year + 1, 0) else (year, month + 1)
  }

  /** A month count splits into a year and a month in 0..11 in exactly one way. */
  lemma MonthIndexUnique(y1: int, m1: int, y2: int, m2: int)
    requires 0 <= m1 <= 11 && 0 <= m2 <= 11
    requires 12 * y1 + m1 == 12 * y2 + m2
    ensures y1 == y2 && m1 == m2
  {
  }

  /** "next" undoes "prev" and "prev" undoes "next". */
  lemma NavigationRoundTrip(year: int, month: int)
    requires 0 <= month <= 11
    ensures MonthAfter(MonthBefore(year, month).0, MonthBefore(year, month).1) == (year, month)
    ensures MonthBefore(MonthAfter(year, month).0, MonthAfter(year, month).1) == (year, month)
  {
    var b := MonthBefore(year, month);
    var a := MonthAfter(b.0, b.1);
    MonthIndexUnique(a.0, a.1, year, month);
    var a2 := MonthAfter(year, month);
    var b2 := MonthBefore(a2.0, a2.1);
    MonthIndexUnique(b2.0, b2.1, year, month);
  }

  /** The calendar's `calendarYear`/`calendarMonth` and its two navigation buttons. */
  class Calendar {
    var year: int
    var month: int

    predicate Valid()
      reads this
    {
      0 <= month <= 11
    }

    /** The first render starts at today's year and month. */
    constructor(todayYear: int, todayMonth: int)
      requires 0 <= todayMonth <= 11
      ensures Valid()
      ensures year == todayYear && month == todayMonth
    {
      year := todayYear;
      month := todayMonth;
    }

    /** The "previous month" button: `calendarMonth--`, wrapping 0 to 11 and decrementing the year. */
    method Prev()
      requires Valid()
      modifies this
      ensures Valid()
      ensures (year, month) == MonthBefore(old(year), old(month))
    {
      month := month - 1;
      if month < 0 {
        month := 11;
        year := year - 1;
      }
    }

    /** The "next month" button: `calendarMonth++`, wrapping 11 to 0 and incrementing the year. */
    method Next()
      requires Valid()
      modifies this
      ensures Valid()
      ensures (year, month) == MonthAfter(old(year), old(month))
    {
      month := month + 1;
      if month > 11 {
        month := 0;
        year := year + 1;
      }
    }
  }

  /* ---------- Date format ---------- */

  /** `formatDateForInput`: `String(getFullYear())`, then the month (`getMonth() + 1`) and the
      day, each padded to two digits, joined by dashes. Whatever the year, its text comes first
      and the two fields after it read back as the month and the day. */
  function FormatDateForInput(year: int, monthIndex: int, day: int): (s: string)
    requires 0 <= monthIndex <= 11 && 1 <= day <= 31
    ensures |s| == |Strings.IntToString(year)| + 6 && |s| >= 7
    ensures s[..|s| - 6] == Strings.IntToString(year)
    ensures s[|s| - 6] == '-' && s[|s| - 3] == '-'
    ensures Strings.ReadsAs(s[|s| - 5..|s| - 3], monthIndex + 1) && Strings.ReadsAs(s[|s| - 2..], day)
  {
    var y := Strings.IntToString(year);
    var m := Strings.PadStart2(Strings.NatToDecimal(monthIndex + 1));
    var d := Strings.PadStart2(Strings.NatToDecimal(day));
    Strings.PaddedRoundTrip(monthIndex + 1);
    Strings.PaddedRoundTrip(day);
    DateLayout(y, m, d);
    y + "-" + m + "-" + d
  }

  /** Where the parts of `y-mm-dd` sit, counted from the end. */
  lemma DateLayout(y: string, m: string, d: string)
    requires |y| >= 1 && |m| == 2 && |d| == 2
    ensures var s := y + "-" + m + "-" + d;
      && |s| == |y| + 6 && |s| >= 7
      && s[..|s| - 6] == y && s[|s| - 6] == '-' && s[|s| - 3] == '-'
      && s[|s| - 5..|s| - 3] == m && s[|s| - 2..] == d
  {
  }

  /** `s` has the shape `y-mm-dd` whose three fields read as `year`, `month` and `day`. */
  predicate ReadsAsDate(s: string, year: nat, month: nat, day: nat)
  {
    && |s| >= 6 && s[|s| - 6] == '-' && s[|s| - 3] == '-'
    && Strings.ReadsAs(s[..|s| - 6], year)
    && Strings.ReadsAs(s[|s| - 5..|s| - 3], month) && Strings.ReadsAs(s[|s| - 2..], day)
  }

  /** For a non-negative year, a `YYYY-MM-DD` string reads back as the year, month and day it
      was made from. */
  lemma FormatDateRoundTrip(year: nat, monthIndex: int, day: int)
    requires 0 <= monthIndex <= 11 && 1 <= day <= 31
    ensures ReadsAsDate(FormatDateForInput(year, monthIndex, day), year, monthIndex + 1, day)
  {
    var s := FormatDateForInput(year, monthIndex, day);
    Strings.DecimalRoundTrip(year);
    assert Strings.ReadsAs(Strings.NatToDecimal(year), year);
    assert s[..|s| - 6] == Strings.NatToDecimal(year);
  }
}

/**
 * The record store of the budget tracker: validation of a submitted income or
 * expense, adding a record (merging it into an existing record with the same
 * date, description and category, or appending it), the per-category spending
 * cap on expenses, and deletion by id.
 *
 * Whether a date string parses (`new Date(date)` is not NaN) is the parameter
 * `dateParses`. Ids (`Date.now() + Math.random()`) are supplied by the caller.
 */
module Budget {
  import opened Common
  import Strings

  datatype IncomeRecord = IncomeRecord(id: real, date: string, source: string, category: string, amount: real)
  datatype ExpenseRecord =
    ExpenseRecord(id: real, date: string, name: string, category: string, price: real, quantity: real)

  /** The fields of an income form that validation inspects, numbers as parsed. */
  datatype IncomeDraft = IncomeDraft(date: string, source: string, amount: Number)
  /** The fields of an expense form that validation inspects, numbers as parsed. */
  datatype ExpenseDraft = ExpenseDraft(date: string, name: string, price: Number, quantity: Number)

  /** The validation failures `validateRecord` can report, one constructor per message. */
  datatype Problem =
    | DateRequired | DateInvalid
    | SourceTooShort | AmountNotNumber | AmountNotPositive | AmountTooLarge
    | NameTooShort | PriceNotNumber | PriceNotPositive
    | QuantityNotNumber | QuantityNotPositive | QuantityNotWhole

  /** The message `validateRecord` pushes for each failure. */
  function Text(p: Problem): string
  {
    match p
    case DateRequired => "Date is required"
    case DateInvalid => "Invalid date format"
    case SourceTooShort => "Income source requires at least 2 characters"
    case AmountNotNumber => "Amount must be a number"
    case AmountNotPositive => "Amount must be greater than 0"
    case AmountTooLarge => "Amount exceeds maximum limit"
    case NameTooShort => "Item name requires at least 2 characters"
    case PriceNotNumber => "Price must be a number"
    case PriceNotPositive => "Price must be greater than 0"
    case QuantityNotNumber => "Quantity must be a number"
    case QuantityNotPositive => "Quantity must be greater than 0"
    case QuantityNotWhole => "Quantity must be a whole number"
  }

  const MAX_INCOME_AMOUNT := 1000000.0
  const CATEGORY_LIMIT := 1000.0

  /** The form field a failure is about: 0 date, 1 description, 2 amount or price, 3 quantity. */
  function FieldOf(p: Problem): nat
  {
    match p
    case DateRequired | DateInvalid => 0
    case SourceTooShort | NameTooShort => 1
    case AmountNotNumber | AmountNotPositive | AmountTooLarge | PriceNotNumber | PriceNotPositive => 2
    case QuantityNotNumber | QuantityNotPositive | QuantityNotWhole => 3
  }

  /** At most one failure per field, reported in form order. */
  predicate FieldOrdered(errs: seq<Problem>)
  {
    forall i, j :: 0 <= i < j < |errs| ==> FieldOf(errs[i]) < FieldOf(errs[j])
  }

  /** `!text || text.trim().length < 2`, the length counted in UTF-16 code units. */
  predicate TooShort(text: string)
  {
    text == "" || Strings.Utf16Length(Strings.Trim(text)) < 2
  }

  /** `Number.isInteger` on a finite value. */
  predicate IsWhole(v: real)
  {
    v.Floor as real == v
  }

  /** The failures of one field: at most one, all about that field. */
  predicate OneField(r: seq<Problem>, field: nat)
  {
    |r| <= 1 && forall i :: 0 <= i < |r| ==> FieldOf(r[i]) == field
  }

  /** When the date check reports `p`. */
  predicate DateFails(date: string, dateParses: string -> bool, p: Problem)
  {
    match p
    case DateRequired => date == ""
    case DateInvalid => date != "" && !dateParses(date)
    case _ => false
  }

  /** When the description check reports `p`; `problem` is the message it uses. */
  predicate TextFails(text: string, problem: Problem, p: Problem)
  {
    p == problem && TooShort(text)
  }

  /** When the income amount check reports `p`. */
  predicate AmountFails(amount: Number, p: Problem)
  {
    match p
    case AmountNotNumber => amount.NaN?
    case AmountNotPositive => amount.Num? && amount.value <= 0.0
    case AmountTooLarge => amount.Num? && amount.value > MAX_INCOME_AMOUNT
    case _ => false
  }

  /** When the expense price check reports `p`. */
  predicate PriceFails(price: Number, p: Problem)
  {
    match p
    case PriceNotNumber => price.NaN?
    case PriceNotPositive => price.Num? && price.value <= 0.0
    case _ => false
  }

  /** When the expense quantity check reports `p`. */
  predicate QuantityFails(quantity: Number, p: Problem)
  {
    match p
    case QuantityNotNumber => quantity.NaN?
    case QuantityNotPositive => quantity.Num? && quantity.value <= 0.0
    case QuantityNotWhole => quantity.Num? && quantity.value > 0.0 && !IsWhole(quantity.value)
    case _ => false
  }

  function DateErrors(date: string, dateParses: string -> bool): (r: seq<Problem>)
    ensures OneField(r, 0)
    ensures forall p :: p in r <==> DateFails(date, dateParses, p)
    ensures r == [] <==> date != "" && dateParses(date)
  {
    if date == "" then [DateRequired] else if !dateParses(date) then [DateInvalid] else []
  }

  /** The description check, shared by the income source and the expense item name. */
  function TextErrors(text: string, problem: Problem): (r: seq<Problem>)
    requires FieldOf(problem) == 1
    ensures OneField(r, 1)
    ensures forall p :: p in r <==> TextFails(text, problem, p)
    ensures r == [] <==> !TooShort(text)
  {
    if TooShort(text) then [problem] else []
  }

  function AmountErrors(amount: Number): (r: seq<Problem>)
    ensures OneField(r, 2)
    ensures forall p :: p in r <==> AmountFails(amount, p)
    ensures r == [] <==> amount.Num? && 0.0 < amount.value <= MAX_INCOME_AMOUNT
  {
    match amount
    case NaN => [AmountNotNumber]
    case Num(v) =>
      if v <= 0.0 then [AmountNotPositive] else if v > MAX_INCOME_AMOUNT then [AmountTooLarge] else []
  }

  function PriceErrors(price: Number): (r: seq<Problem>)
    ensures OneField(r, 2)
    ensures forall p :: p in r <==> PriceFails(price, p)
    ensures r == [] <==> price.Num? && price.value > 0.0
  {
    match price
    case NaN => [PriceNotNumber]
    case Num(v) => if v <= 0.0 then [PriceNotPositive] else []
  }

  function QuantityErrors(quantity: Number): (r: seq<Problem>)
    ensures OneField(r, 3)
    ensures forall p :: p in r <==> QuantityFails(quantity, p)
    ensures r == [] <==> quantity.Num? && quantity.value > 0.0 && IsWhole(quantity.value)
  {
    match quantity
    case NaN => [QuantityNotNumber]
    case Num(v) =>
      if v <= 0.0 then [QuantityNotPositive] else if !IsWhole(v) then [QuantityNotWhole] else []
  }

  /** Appending the failures of a later field keeps the list in form order. */
  lemma OrderedAppend(a: seq<Problem>, b: seq<Problem>, field: nat)
    requires FieldOrdered(a) && forall i :: 0 <= i < |a| ==> FieldOf(a[i]) < field
    requires OneField(b, field)
    ensures FieldOrdered(a + b)
    ensures forall i :: 0 <= i < |a + b| ==> FieldOf((a + b)[i]) <= field
  {
  }

  /** The failures `validateRecord(record, 'income')` reports for a draft. */
  predicate IncomeFails(d: IncomeDraft, dateParses: string -> bool, p: Problem)
  {
    DateFails(d.date, dateParses, p) || TextFails(d.source, SourceTooShort, p) || AmountFails(d.amount, p)
  }

  /** The failures `validateRecord(record, 'expense')` reports for a draft. */
  predicate ExpenseFails(d: ExpenseDraft, dateParses: string -> bool, p: Problem)
  {
    || DateFails(d.date, dateParses, p) || TextFails(d.name, NameTooShort, p)
    || PriceFails(d.price, p) || QuantityFails(d.quantity, p)
  }

  /** An income draft that passes every field check. */
  predicate IncomeAcceptable(d: IncomeDraft, dateParses: string -> bool)
  {
    && d.date != "" && dateParses(d.date)
    && !TooShort(d.source)
    && d.amount.Num? && 0.0 < d.amount.value <= MAX_INCOME_AMOUNT
  }

  /** An expense draft that passes every field check. */
  predicate ExpenseAcceptable(d: ExpenseDraft, dateParses: string -> bool)
  {
    && d.date != "" && dateParses(d.date)
    && !TooShort(d.name)
    && d.price.Num? && d.price.value > 0.0
    && d.quantity.Num? && d.quantity.value > 0.0 && IsWhole(d.quantity.value)
  }

  /** `validateRecord(record, 'income')`: exactly the failing checks, one per field, in form order. */
  function ValidateIncome(d: IncomeDraft, dateParses: string -> bool): (errs: seq<Problem>)
    ensures forall p :: p in errs <==> IncomeFails(d, dateParses, p)
    ensures FieldOrdered(errs)
    ensures errs == [] <==> IncomeAcceptable(d, dateParses)
  {
    var date := DateErrors(d.date, dateParses);
    var source := TextErrors(d.source, SourceTooShort);
    var amount := AmountErrors(d.amount);
    OrderedAppend(date, source, 1);
    OrderedAppend(date + source, amount, 2);
    date + source + amount
  }

  /** `validateRecord(record, 'expense')`: exactly the failing checks, one per field, in form order. */
  function ValidateExpense(d: ExpenseDraft, dateParses: string -> bool): (errs: seq<Problem>)
    ensures forall p :: p in errs <==> ExpenseFails(d, dateParses, p)
    ensures FieldOrdered(errs)
    ensures errs == [] <==> ExpenseAcceptable(d, dateParses)
  {
    var date := DateErrors(d.date, dateParses);
    var name := TextErrors(d.name, NameTooShort);
    var price := PriceErrors(d.price);
    var quantity := QuantityErrors(d.quantity);
    OrderedAppend(date, name, 1);
    OrderedAppend(date + name, price, 2);
    OrderedAppend(date + name + price, quantity, 3);
    date + name + price + quantity
  }

  /** A form field is reported at most once: two failures in the list are about different fields. */
  lemma AtMostOnePerField(errs: seq<Problem>)
    requires FieldOrdered(errs)
    ensures forall i, j :: 0 <= i < |errs| && 0 <= j < |errs| && FieldOf(errs[i]) == FieldOf(errs[j]) ==> i == j
  {
  }

  /** The date and amount checks of an income draft: a missing date is never also called
      invalid, the amount is flagged once at most, and exactly the maximum amount passes. */
  lemma IncomeValidationFacts(d: IncomeDraft, dateParses: string -> bool)
    ensures DateRequired in ValidateIncome(d, dateParses) <==> d.date == ""
    ensures DateInvalid in ValidateIncome(d, dateParses) ==> DateRequired !in ValidateIncome(d, dateParses)
    ensures d.amount == Num(MAX_INCOME_AMOUNT) ==>
              forall p :: p in ValidateIncome(d, dateParses) ==> FieldOf(p) != 2
    ensures d.amount.Num? && d.amount.value > MAX_INCOME_AMOUNT ==>
              AmountTooLarge in ValidateIncome(d, dateParses)
              && AmountNotPositive !in ValidateIncome(d, dateParses)
  {
  }

  /** The quantity check of an expense draft: a positive fraction is reported only as not whole. */
  lemma ExpenseQuantityFacts(d: ExpenseDraft, dateParses: string -> bool)
    requires d.quantity.Num? && d.quantity.value > 0.0 && !IsWhole(d.quantity.value)
    ensures QuantityNotWhole in ValidateExpense(d, dateParses)
    ensures QuantityNotNumber !in ValidateExpense(d, dateParses)
    ensures QuantityNotPositive !in ValidateExpense(d, dateParses)
  {
  }

  /* ---------- Totals and keys ---------- */

  function IncomeAmount(r: IncomeRecord): real { r.amount }
  function IncomeSource(r: IncomeRecord): string { r.source }
  function ExpenseCost(r: ExpenseRecord): real { r.price * r.quantity }
  function ExpenseCategory(r: ExpenseRecord): string { r.category }

  function InCategory(category: string): ExpenseRecord -> bool { (r: ExpenseRecord) => r.category == category }

  /** The spending recorded under one category. */
  function CategoryTotal(s: seq<ExpenseRecord>, category: string): real
  {
    SumWhere(s, ExpenseCategory, ExpenseCost, category)
  }

  /** The category total is what the source computes: the records of that category, filtered,
      with their `price * quantity` summed. */
  lemma CategoryTotalFiltered(s: seq<ExpenseRecord>, category: string)
    ensures CategoryTotal(s, category) == Sum(Filter(s, InCategory(category)), ExpenseCost)
  {
    SumWhereIsFilteredSum(s, ExpenseCategory, ExpenseCost, category, InCategory(category));
  }

  /** No category has more than the limit recorded against it. */
  ghost predicate WithinCap(s: seq<ExpenseRecord>)
  {
    forall c :: CategoryTotal(s, c) <= CATEGORY_LIMIT
  }

  /** The key `addIncome` merges on: date, source and category. */
  function IncomeKey(r: IncomeRecord): (string, string, string)
  {
    (r.date, r.source, r.category)
  }

  /** The key `addExpense` merges on: date, item name and category. */
  function ExpenseKey(r: ExpenseRecord): (string, string, string)
  {
    (r.date, r.name, r.category)
  }

  predicate SameIncomeKey(a: IncomeRecord, b: IncomeRecord) { IncomeKey(a) == IncomeKey(b) }
  predicate SameExpenseKey(a: ExpenseRecord, b: ExpenseRecord) { ExpenseKey(a) == ExpenseKey(b) }

  predicate DifferentIncomeKeys(a: IncomeRecord, b: IncomeRecord) { !SameIncomeKey(a, b) }
  predicate DifferentExpenseKeys(a: ExpenseRecord, b: ExpenseRecord) { !SameExpenseKey(a, b) }

  predicate IncomeKeysUnique(s: seq<IncomeRecord>)
  {
    forall i, j :: 0 <= i < j < |s| ==> DifferentIncomeKeys(s[i], s[j])
  }

  predicate ExpenseKeysUnique(s: seq<ExpenseRecord>)
  {
    forall i, j :: 0 <= i < j < |s| ==> DifferentExpenseKeys(s[i], s[j])
  }

  /* ---------- Merge or append ---------- */

  /** The list after a valid income record is added: its amount is added to the first
      record with the same key, or it is appended when there is none. Records with
      another key are untouched. */
  function MergeIncome(s: seq<IncomeRecord>, r: IncomeRecord): (t: seq<IncomeRecord>)
    ensures |s| <= |t| <= |s| + 1
    ensures forall i :: 0 <= i < |s| && !SameIncomeKey(s[i], r) ==> t[i] == s[i]
  {
    MergeIncomeAt(s, r, FindKey(s, IncomeKey, IncomeKey(r)))
  }

  /** Merge into index `k` when `findIndex` found one, append when it returned -1. */
  function MergeIncomeAt(s: seq<IncomeRecord>, r: IncomeRecord, k: int): seq<IncomeRecord>
    requires -1 <= k < |s|
  {
    if k >= 0 then s[k := s[k].(amount := s[k].amount + r.amount)] else s + [r]
  }

  /** Whether merged or appended, total income grows by exactly the new amount. */
  lemma MergeIncomeTotal(s: seq<IncomeRecord>, r: IncomeRecord)
    ensures Sum(MergeIncome(s, r), IncomeAmount) == Sum(s, IncomeAmount) + r.amount
  {
    var k := FindKey(s, IncomeKey, IncomeKey(r));
    if k >= 0 {
      SumUpdate(s, k, s[k].(amount := s[k].amount + r.amount), IncomeAmount);
    } else {
      SumAppend(s, r, IncomeAmount);
    }
  }

  /** A merge happens exactly when a record with the same key exists; it keeps the length,
      only the amount of the first such record changes, and ids and keys stay where they were. */
  lemma MergeIncomeKeys(s: seq<IncomeRecord>, r: IncomeRecord)
    ensures (exists i :: 0 <= i < |s| && SameIncomeKey(s[i], r)) ==> |MergeIncome(s, r)| == |s|
    ensures (forall i :: 0 <= i < |s| ==> !SameIncomeKey(s[i], r)) ==> MergeIncome(s, r) == s + [r]
    ensures forall i :: 0 <= i < |s| ==>
              MergeIncome(s, r)[i].id == s[i].id && SameIncomeKey(MergeIncome(s, r)[i], s[i])
    ensures exists i :: 0 <= i < |MergeIncome(s, r)| && SameIncomeKey(MergeIncome(s, r)[i], r)
    ensures forall i :: 0 <= i < |s| ==>
              || MergeIncome(s, r)[i] == s[i]
              || (SameIncomeKey(s[i], r) && MergeIncome(s, r)[i] == s[i].(amount := s[i].amount + r.amount))
  {
    var k := FindKey(s, IncomeKey, IncomeKey(r));
    var t := MergeIncome(s, r);
    if k >= 0 {
      assert SameIncomeKey(t[k], r);
    } else {
      assert SameIncomeKey(t[|s|], r);
    }
  }

  /** Adding an income record never creates two records with the same key. */
  lemma MergeIncomeUnique(s: seq<IncomeRecord>, r: IncomeRecord)
    requires IncomeKeysUnique(s)
    ensures IncomeKeysUnique(MergeIncome(s, r))
  {
    var k := FindKey(s, IncomeKey, IncomeKey(r));
    var t := MergeIncome(s, r);
    if k < 0 {
      forall i, j | 0 <= i < j < |t| ensures !SameIncomeKey(t[i], t[j]) {
        if j == |s| {
          assert IncomeKey(s[i]) != IncomeKey(r);
        }
      }
    }
  }

  /** The spending a valid expense record adds: on a merge the existing record's price
      is kept, so the added cost is that price times the new quantity. */
  function AddedCost(s: seq<ExpenseRecord>, r: ExpenseRecord): real
  {
    var k := FindKey(s, ExpenseKey, ExpenseKey(r));
    if k >= 0 then s[k].price * r.quantity else r.price * r.quantity
  }

  /** The list after a valid expense record is added: its quantity is added to the first
      record with the same key, or it is appended when there is none. Records with
      another key are untouched. */
  function MergeExpense(s: seq<ExpenseRecord>, r: ExpenseRecord): (t: seq<ExpenseRecord>)
    ensures |s| <= |t| <= |s| + 1
    ensures forall i :: 0 <= i < |s| && !SameExpenseKey(s[i], r) ==> t[i] == s[i]
  {
    MergeExpenseAt(s, r, FindKey(s, ExpenseKey, ExpenseKey(r)))
  }

  /** Merge into index `k` when `findIndex` found one, append when it returned -1. */
  function MergeExpenseAt(s: seq<ExpenseRecord>, r: ExpenseRecord, k: int): seq<ExpenseRecord>
    requires -1 <= k < |s|
  {
    if k >= 0 then s[k := s[k].(quantity := s[k].quantity + r.quantity)] else s + [r]
  }

  /** A merge happens exactly when a record with the same key exists; it keeps the length,
      only the quantity of the first such record grows (its price is kept), and ids and keys
      stay where they were. */
  lemma MergeExpenseKeys(s: seq<ExpenseRecord>, r: ExpenseRecord)
    ensures (exists i :: 0 <= i < |s| && SameExpenseKey(s[i], r)) ==> |MergeExpense(s, r)| == |s|
    ensures (forall i :: 0 <= i < |s| ==> !SameExpenseKey(s[i], r)) ==> MergeExpense(s, r) == s + [r]
    ensures forall i :: 0 <= i < |s| ==>
              && MergeExpense(s, r)[i].id == s[i].id
              && MergeExpense(s, r)[i].price == s[i].price
              && SameExpenseKey(MergeExpense(s, r)[i], s[i])
    ensures exists i :: 0 <= i < |MergeExpense(s, r)| && SameExpenseKey(MergeExpense(s, r)[i], r)
    ensures forall i :: 0 <= i < |s| ==>
              || MergeExpense(s, r)[i] == s[i]
              || (SameExpenseKey(s[i], r) && MergeExpense(s, r)[i] == s[i].(quantity := s[i].quantity + r.quantity))
  {
    var k := FindKey(s, ExpenseKey, ExpenseKey(r));
    var t := MergeExpense(s, r);
    if k >= 0 {
      assert SameExpenseKey(t[k], r);
    } else {
      assert SameExpenseKey(t[|s|], r);
    }
  }

  /** Adding an expense record never creates two records with the same key. */
  lemma MergeExpenseUnique(s: seq<ExpenseRecord>, r: ExpenseRecord)
    requires ExpenseKeysUnique(s)
    ensures ExpenseKeysUnique(MergeExpense(s, r))
  {
    var k := FindKey(s, ExpenseKey, ExpenseKey(r));
    var t := MergeExpense(s, r);
    if k < 0 {
      forall i, j | 0 <= i < j < |t| ensures !SameExpenseKey(t[i], t[j]) {
        if j == |s| {
          assert ExpenseKey(s[i]) != ExpenseKey(r);
        }
      }
    }
  }

  /** The record a merge produces costs its old cost plus the added cost. */
  lemma MergedCost(e: ExpenseRecord, quantity: real)
    ensures ExpenseCost(e.(quantity := e.quantity + quantity)) == ExpenseCost(e) + e.price * quantity
  {
  }

  /** Adding an expense raises its own category by exactly `AddedCost` and leaves every
      other category's total as it was. */
  lemma MergeExpenseCategory(s: seq<ExpenseRecord>, r: ExpenseRecord, c: string)
    ensures CategoryTotal(MergeExpense(s, r), c)
         == CategoryTotal(s, c) + (if c == r.category then AddedCost(s, r) else 0.0)
  {
    var k := FindKey(s, ExpenseKey, ExpenseKey(r));
    if k >= 0 {
      var m := s[k].(quantity := s[k].quantity + r.quantity);
      MergedCost(s[k], r.quantity);
      assert ExpenseCost(m) == ExpenseCost(s[k]) + AddedCost(s, r);
      assert ExpenseCategory(m) == ExpenseCategory(s[k]) == r.category;
      SumWhereUpdate(s, k, m, ExpenseCategory, ExpenseCost, c);
    } else {
      assert ExpenseCost(r) == AddedCost(s, r);
      SumWhereAppend(s, r, ExpenseCategory, ExpenseCost, c);
    }
  }

  /** Adding an expense raises the overall spending by exactly `AddedCost`. */
  lemma MergeExpenseTotal(s: seq<ExpenseRecord>, r: ExpenseRecord)
    ensures Sum(MergeExpense(s, r), ExpenseCost) == Sum(s, ExpenseCost) + AddedCost(s, r)
  {
    var k := FindKey(s, ExpenseKey, ExpenseKey(r));
    if k >= 0 {
      var m := s[k].(quantity := s[k].quantity + r.quantity);
      MergedCost(s[k], r.quantity);
      assert ExpenseCost(m) == ExpenseCost(s[k]) + AddedCost(s, r);
      SumUpdate(s, k, m, ExpenseCost);
    } else {
      assert ExpenseCost(r) == AddedCost(s, r);
      SumAppend(s, r, ExpenseCost);
    }
  }

  /** The corrected cap test: the category total after the addition stays within the limit. */
  predicate CapAllows(s: seq<ExpenseRecord>, r: ExpenseRecord)
  {
    CategoryTotal(s, r.category) + AddedCost(s, r) <= CATEGORY_LIMIT
  }

  /** An addition the corrected cap test admits keeps every category within the limit. */
  lemma CapPreserved(s: seq<ExpenseRecord>, r: ExpenseRecord)
    requires WithinCap(s) && CapAllows(s, r)
    ensures WithinCap(MergeExpense(s, r))
  {
    var t := MergeExpense(s, r);
    forall c ensures CategoryTotal(t, c) <= CATEGORY_LIMIT {
      MergeExpenseCategory(s, r, c);
      if c != r.category {
        assert CategoryTotal(s, c) <= CATEGORY_LIMIT;
      }
    }
  }

  /** `addExpense` as written: the cap test prices the new quantity at the submitted price
      even when the record is merged into one that keeps its own price. `None` is a rejection. */
  function AddExpenseAsWritten(s: seq<ExpenseRecord>, r: ExpenseRecord): (res: Option<seq<ExpenseRecord>>)
    ensures res.None? <==> CategoryTotal(s, r.category) + r.price * r.quantity > CATEGORY_LIMIT
    ensures res.Some? ==> res.value == MergeExpense(s, r)
  {
    if CategoryTotal(s, r.category) + r.price * r.quantity > CATEGORY_LIMIT then None
    else Some(MergeExpense(s, r))
  }

  /** When nothing is merged, the test as written and the corrected test agree. */
  lemma AsWrittenAgreesOnAppend(s: seq<ExpenseRecord>, r: ExpenseRecord)
    requires forall i :: 0 <= i < |s| ==> !SameExpenseKey(s[i], r)
    ensures AddExpenseAsWritten(s, r).None? <==> !CapAllows(s, r)
  {
  }

  /** The cap as written can be exceeded: 9 lunches at 100 are within the 1000 limit, and 5 more
      submitted at price 1 pass the test (900 + 5) but are merged at price 100, giving 1400. */
  lemma AsWrittenExceedsCap()
    ensures var before := [ExpenseRecord(1.0, "2024-01-01", "Lunch", "Food", 100.0, 9.0)];
            var r := ExpenseRecord(2.0, "2024-01-01", "Lunch", "Food", 1.0, 5.0);
            && WithinCap(before)
            && AddExpenseAsWritten(before, r).Some?
            && CategoryTotal(AddExpenseAsWritten(before, r).value, "Food") == 1400.0
            && !WithinCap(AddExpenseAsWritten(before, r).value)
            && !CapAllows(before, r)
  {
    var before := [ExpenseRecord(1.0, "2024-01-01", "Lunch", "Food", 100.0, 9.0)];
    var r := ExpenseRecord(2.0, "2024-01-01", "Lunch", "Food", 1.0, 5.0);
    forall c ensures CategoryTotal(before, c) <= CATEGORY_LIMIT {
      assert before[..|before| - 1] == [];
      assert ExpenseCategory(before[0]) == "Food" && ExpenseCost(before[0]) == 900.0;
      assert CategoryTotal(before, c) == SumWhere([], ExpenseCategory, ExpenseCost, c)
                                         + (if "Food" == c then 900.0 else 0.0);
    }
    assert FindKey(before, ExpenseKey, ExpenseKey(r)) == 0;
    assert AddedCost(before, r) == 500.0;
    MergeExpenseCategory(before, r, "Food");
  }

  /** The two tests also differ the other way: 5 lunches at 1 are recorded, and 5 more submitted
      at price 200 are rejected as written (5 + 1000), although merging them at the kept price 1
      would only bring the category to 10. */
  lemma AsWrittenRejectsWithinCap()
    ensures var before := [ExpenseRecord(1.0, "2024-01-01", "Lunch", "Food", 1.0, 5.0)];
            var r := ExpenseRecord(2.0, "2024-01-01", "Lunch", "Food", 200.0, 5.0);
            && AddExpenseAsWritten(before, r).None?
            && CapAllows(before, r)
            && CategoryTotal(MergeExpense(before, r), "Food") == 10.0
  {
    var before := [ExpenseRecord(1.0, "2024-01-01", "Lunch", "Food", 1.0, 5.0)];
    var r := ExpenseRecord(2.0, "2024-01-01", "Lunch", "Food", 200.0, 5.0);
    assert before[..|before| - 1] == [];
    assert CategoryTotal(before, "Food") == 5.0;
    assert FindKey(before, ExpenseKey, ExpenseKey(r)) == 0;
    assert AddedCost(before, r) == 5.0;
    MergeExpenseCategory(before, r, "Food");
  }

  /* ---------- Deletion ---------- */

  function IncomeIdOtherThan(id: real): IncomeRecord -> bool { (r: IncomeRecord) => r.id != id }
  function ExpenseIdOtherThan(id: real): ExpenseRecord -> bool { (r: ExpenseRecord) => r.id != id }

  /** Deleting by id removes exactly the income records carrying that id, keeps every other
      one, and deletes nothing when no record carries it. */
  lemma DeleteIncomeSpec(s: seq<IncomeRecord>, id: real)
    ensures forall i :: 0 <= i < |Filter(s, IncomeIdOtherThan(id))| ==> Filter(s, IncomeIdOtherThan(id))[i].id != id
    ensures forall i :: 0 <= i < |s| && s[i].id != id ==> s[i] in Filter(s, IncomeIdOtherThan(id))
    ensures (forall i :: 0 <= i < |s| ==> s[i].id != id) ==> Filter(s, IncomeIdOtherThan(id)) == s
  {
    FilterAllOrNone(s, IncomeIdOtherThan(id));
  }

  /** Deleting income records keeps the merge keys unique. */
  lemma DeleteIncomeUnique(s: seq<IncomeRecord>, id: real)
    requires IncomeKeysUnique(s)
    ensures IncomeKeysUnique(Filter(s, IncomeIdOtherThan(id)))
  {
    FilterPairwise(s, IncomeIdOtherThan(id), DifferentIncomeKeys);
  }

  /** The same for expense records. */
  lemma DeleteExpenseSpec(s: seq<ExpenseRecord>, id: real)
    ensures forall i :: 0 <= i < |Filter(s, ExpenseIdOtherThan(id))| ==> Filter(s, ExpenseIdOtherThan(id))[i].id != id
    ensures forall i :: 0 <= i < |s| && s[i].id != id ==> s[i] in Filter(s, ExpenseIdOtherThan(id))
    ensures (forall i :: 0 <= i < |s| ==> s[i].id != id) ==> Filter(s, ExpenseIdOtherThan(id)) == s
  {
    FilterAllOrNone(s, ExpenseIdOtherThan(id));
  }

  /** Deleting expense records keeps the merge keys unique. */
  lemma DeleteExpenseUnique(s: seq<ExpenseRecord>, id: real)
    requires ExpenseKeysUnique(s)
    ensures ExpenseKeysUnique(Filter(s, ExpenseIdOtherThan(id)))
  {
    FilterPairwise(s, ExpenseIdOtherThan(id), DifferentExpenseKeys);
  }

  /** What `addIncome`/`addExpense` did with a submission. */
  datatype AddOutcome =
    | Invalid(errors: seq<Problem>)
    | OverLimit
    | Merged(index: nat)
    | Appended

  /**
   * The module-level `incomeRecords` and `expenseRecords` arrays and the operations that
   * change them. Form reading is replaced by parameters: the submitted fields as typed
   * (text untrimmed, numbers as parsed) and the id the caller generated.
   */
  class RecordStore {
    var income: seq<IncomeRecord>
    var expenses: seq<ExpenseRecord>

    constructor()
      ensures income == [] && expenses == []
    {
      income := [];
      expenses := [];
    }

    /** `addIncome`: trim the source, validate, then commit. */
    method AddIncome(id: real, date: string, sourceInput: string, category: string, amount: Number,
                     dateParses: string -> bool)
      returns (outcome: AddOutcome)
      modifies this
      ensures expenses == old(expenses)
      ensures var errs := ValidateIncome(IncomeDraft(date, Strings.Trim(sourceInput), amount), dateParses);
              if errs != [] then outcome == Invalid(errs) && income == old(income)
              else
                var r := IncomeRecord(id, date, Strings.Trim(sourceInput), category, amount.value);
                var k := FindKey(old(income), IncomeKey, IncomeKey(r));
                && income == MergeIncome(old(income), r)
                && outcome == (if k >= 0 then Merged(k) else Appended)
    {
      var source := Strings.Trim(sourceInput);
      var errs := ValidateIncome(IncomeDraft(date, source, amount), dateParses);
      if errs != [] {
        return Invalid(errs);
      }
      outcome := CommitIncome(IncomeRecord(id, date, source, category, amount.value));
    }

    /** The part of `addIncome` after validation: add the amount to the first record with the
        same key, or append the record when there is none. */
    method CommitIncome(r: IncomeRecord) returns (outcome: AddOutcome)
      modifies this
      ensures expenses == old(expenses)
      ensures income == MergeIncome(old(income), r)
      ensures var k := FindKey(old(income), IncomeKey, IncomeKey(r));
              outcome == if k >= 0 then Merged(k) else Appended
    {
      var k := FindKey(income, IncomeKey, IncomeKey(r));
      if k >= 0 {
        income := income[k := income[k].(amount := income[k].amount + r.amount)];
        outcome := Merged(k);
      } else {
        income := income + [r];
        outcome := Appended;
      }
    }

    /**
     * `addExpense`, with the cap test corrected to charge the cost the addition really adds
     * (see `AsWrittenExceedsCap`): trim the name, validate, then commit.
     */
    method AddExpense(id: real, date: string, nameInput: string, category: string, price: Number,
                      quantity: Number, dateParses: string -> bool)
      returns (outcome: AddOutcome)
      modifies this
      ensures income == old(income)
      ensures old(WithinCap(expenses)) ==> WithinCap(expenses)
      ensures var errs := ValidateExpense(ExpenseDraft(date, Strings.Trim(nameInput), price, quantity), dateParses);
              if errs != [] then outcome == Invalid(errs) && expenses == old(expenses)
              else
                var r := ExpenseRecord(id, date, Strings.Trim(nameInput), category, price.value, quantity.value);
                var k := FindKey(old(expenses), ExpenseKey, ExpenseKey(r));
                if !CapAllows(old(expenses), r) then outcome == OverLimit && expenses == old(expenses)
                else
                  && expenses == MergeExpense(old(expenses), r)
                  && outcome == (if k >= 0 then Merged(k) else Appended)
    {
      var name := Strings.Trim(nameInput);
      var errs := ValidateExpense(ExpenseDraft(date, name, price, quantity), dateParses);
      if errs != [] {
        return Invalid(errs);
      }
      outcome := CommitExpense(ExpenseRecord(id, date, name, category, price.value, quantity.value));
    }

    /** The part of `addExpense` after validation: reject when the category would go over
        the limit, otherwise merge into the record with the same key or append. */
    method CommitExpense(r: ExpenseRecord) returns (outcome: AddOutcome)
      modifies this
      ensures income == old(income)
      ensures old(WithinCap(expenses)) ==> WithinCap(expenses)
      ensures var k := FindKey(old(expenses), ExpenseKey, ExpenseKey(r));
              if !CapAllows(old(expenses), r) then outcome == OverLimit && expenses == old(expenses)
              else
                && expenses == MergeExpense(old(expenses), r)
                && outcome == (if k >= 0 then Merged(k) else Appended)
    {
      var k := FindKey(expenses, ExpenseKey, ExpenseKey(r));
      if CategoryTotal(expenses, r.category) + AddedCost(expenses, r) > CATEGORY_LIMIT {
        return OverLimit;
      }
      if WithinCap(expenses) {
        CapPreserved(expenses, r);
      }
      if k >= 0 {
        expenses := expenses[k := expenses[k].(quantity := expenses[k].quantity + r.quantity)];
        outcome := Merged(k);
      } else {
        expenses := expenses + [r];
        outcome := Appended;
      }
    }

    /** `deleteRecord`: drop every record of the named kind whose id is `id`; any other kind is an error. */
    method DeleteRecord(id: real, kind: string) returns (ok: bool)
      modifies this
      ensures ok <==> kind == "income" || kind == "expense"
      ensures income == if kind == "income" then Filter(old(income), IncomeIdOtherThan(id)) else old(income)
      ensures expenses == if kind == "expense" then Filter(old(expenses), ExpenseIdOtherThan(id)) else old(expenses)
    {
      if kind == "income" {
        income := Filter(income, IncomeIdOtherThan(id));
        ok := true;
      } else if kind == "expense" {
        expenses := Filter(expenses, ExpenseIdOtherThan(id));
        ok := true;
      } else {
        ok := false;
      }
    }
  }
}

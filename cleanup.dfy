/** The cleanup stage (class `ExcelProcessor` of main.py): the loaded sheet
    is held in the field `df`; processing turns the category column into
    text, drops the rows without an amount and sorts by category; payees
    can then be recategorised in place, and the table answers a per-category
    sum and a top-five query. Amounts are in agorot. */
module Cleanup {
  import opened Wrappers
  import opened Text
  import opened Sorting

  /** A row of the sheet: category (ענף), amount (סכום חיוב) and payee
      (שם בית עסק); any cell may be empty. */
  datatype Row = Row(category: Option<string>, amount: Option<int>, name: Option<string>)

  datatype Error =
    | ValueError(message: string)   // `_validate_dataframe` before processing
    | AttributeError                // a method of `None` called

  const NotProcessed := "You must run process_excel() first."

  // process_excel

  /** `astype(str)`: an empty cell becomes the text "nan". */
  function AsText(c: Option<string>): (s: string)
    ensures c.Some? ==> s == c.value
    ensures c.None? ==> s == "nan"
  {
    c.GetOr("nan")
  }

  function CategoriesAsText(rows: seq<Row>): (r: seq<Row>)
    ensures |r| == |rows|
    ensures forall i :: 0 <= i < |r| ==>
              r[i] == Row(Some(AsText(rows[i].category)), rows[i].amount, rows[i].name)
  {
    seq(|rows|, i requires 0 <= i < |rows| => rows[i].(category := Some(AsText(rows[i].category))))
  }

  /** `dropna(subset=[amount])`: the rows with an amount, every copy of a
      repeated row, in table order. */
  function DropMissingAmount(rows: seq<Row>): (r: seq<Row>)
    ensures forall t :: t in r <==> t in rows && t.amount.Some?
    ensures |r| <= |rows|
  {
    FilterCount(rows, HasAmount);
    Filter(rows, HasAmount)
  }

  predicate HasAmount(t: Row)
  {
    t.amount.Some?
  }

  /** Dropping keeps every copy of each row with an amount, in table order. */
  lemma DropMissingAmountInOrder(rows: seq<Row>)
    ensures forall t :: multiset(DropMissingAmount(rows))[t] == if t.amount.Some? then multiset(rows)[t] else 0
    ensures exists idx :: PicksAt(DropMissingAmount(rows), rows, idx)
  {
    FilterCount(rows, HasAmount);
    FilterOrder(rows, HasAmount);
    var idx :| PicksAt(Filter(rows, HasAmount), rows, idx);
    assert PicksAt(DropMissingAmount(rows), rows, idx);
  }

  /** The rows `process_excel` keeps, before sorting: every category is
      text, every amount present. Because the text conversion comes first, a
      row without a category is kept with the category "nan". */
  function Cleaned(loaded: seq<Row>): (r: seq<Row>)
    ensures forall t :: t in r ==> t.category.Some? && t.amount.Some?
  {
    DropMissingAmount(CategoriesAsText(loaded))
  }

  lemma MissingCategoryBecomesNan(loaded: seq<Row>, i: int)
    requires 0 <= i < |loaded| && loaded[i].category.None? && loaded[i].amount.Some?
    ensures Row(Some("nan"), loaded[i].amount, loaded[i].name) in Cleaned(loaded)
  {
    assert CategoriesAsText(loaded)[i] == Row(Some("nan"), loaded[i].amount, loaded[i].name);
  }

  /** Exactly the rows with an amount survive. */
  lemma KeptExactly(loaded: seq<Row>, t: Row)
    ensures t in Cleaned(loaded) <==>
            t.amount.Some? && t.category.Some? &&
            exists i :: 0 <= i < |loaded| && loaded[i].amount == t.amount && loaded[i].name == t.name
                        && AsText(loaded[i].category) == t.category.value
  {
    var text := CategoriesAsText(loaded);
    if t in Cleaned(loaded) {
      var i :| 0 <= i < |text| && text[i] == t;
      assert loaded[i].amount == t.amount;
    }
    if t.amount.Some? && t.category.Some? &&
       exists i :: 0 <= i < |loaded| && loaded[i].amount == t.amount && loaded[i].name == t.name
                   && AsText(loaded[i].category) == t.category.value {
      var i :| 0 <= i < |loaded| && loaded[i].amount == t.amount && loaded[i].name == t.name
               && AsText(loaded[i].category) == t.category.value;
      assert text[i] == t;
    }
  }

  function CategoryText(r: Row): string
  {
    AsText(r.category)
  }

  ghost predicate SortedByCategory(rows: seq<Row>)
  {
    forall i, j :: 0 <= i < j < |rows| ==> LexLe(CategoryText(rows[i]), CategoryText(rows[j]))
  }

  ghost predicate AllAtLeast(rows: seq<Row>, low: string)
  {
    forall j :: 0 <= j < |rows| ==> LexLe(low, CategoryText(rows[j]))
  }

  /** Places `x` before the first row whose category is not smaller. */
  function InsertByCategory(rows: seq<Row>, x: Row): (r: seq<Row>)
    ensures |r| == |rows| + 1
    ensures multiset(r) == multiset(rows) + multiset{x}
    decreases |rows|
  {
    if rows == [] then [x]
    else if LexLe(CategoryText(x), CategoryText(rows[0])) then [x] + rows
    else
      assert rows == [rows[0]] + rows[1..];
      [rows[0]] + InsertByCategory(rows[1..], x)
  }

  lemma {:induction false} InsertAtLeast(rows: seq<Row>, x: Row, low: string)
    requires AllAtLeast(rows, low) && LexLe(low, CategoryText(x))
    ensures AllAtLeast(InsertByCategory(rows, x), low)
    decreases |rows|
  {
    if rows != [] && !LexLe(CategoryText(x), CategoryText(rows[0])) {
      InsertAtLeast(rows[1..], x, low);
      var t := InsertByCategory(rows[1..], x);
      assert forall j :: 1 <= j < |t| + 1 ==> ([rows[0]] + t)[j] == t[j - 1];
    }
  }

  lemma {:induction false} InsertSorted(rows: seq<Row>, x: Row)
    requires SortedByCategory(rows)
    ensures SortedByCategory(InsertByCategory(rows, x))
    decreases |rows|
  {
    if rows != [] {
      var first := CategoryText(rows[0]);
      SortedTail(rows);
      if LexLe(CategoryText(x), first) {
        HeadBound(rows, CategoryText(x));
        ConsSorted(x, rows);
      } else {
        LexLeTotal(CategoryText(x), first);
        InsertSorted(rows[1..], x);
        InsertAtLeast(rows[1..], x, first);
        ConsSorted(rows[0], InsertByCategory(rows[1..], x));
      }
    }
  }

  lemma ConsSorted(x: Row, t: seq<Row>)
    requires SortedByCategory(t) && AllAtLeast(t, CategoryText(x))
    ensures SortedByCategory([x] + t)
  {
    var r := [x] + t;
    forall i, j | 0 <= i < j < |r| ensures LexLe(CategoryText(r[i]), CategoryText(r[j])) {
      assert r[j] == t[j - 1];
      if i > 0 {
        assert r[i] == t[i - 1];
      }
    }
  }

  lemma SortedTail(rows: seq<Row>)
    requires SortedByCategory(rows) && rows != []
    ensures SortedByCategory(rows[1..]) && AllAtLeast(rows[1..], CategoryText(rows[0]))
  {
    var t := rows[1..];
    forall j | 0 <= j < |t| ensures LexLe(CategoryText(rows[0]), CategoryText(t[j])) {
      assert t[j] == rows[j + 1];
    }
    forall i, j | 0 <= i < j < |t| ensures LexLe(CategoryText(t[i]), CategoryText(t[j])) {
      assert t[i] == rows[i + 1] && t[j] == rows[j + 1];
    }
  }

  lemma HeadBound(rows: seq<Row>, low: string)
    requires SortedByCategory(rows) && rows != [] && LexLe(low, CategoryText(rows[0]))
    ensures AllAtLeast(rows, low)
  {
    forall j | 0 <= j < |rows| ensures LexLe(low, CategoryText(rows[j])) {
      if j > 0 {
        LexLeTransitive(low, CategoryText(rows[0]), CategoryText(rows[j]));
      }
    }
  }

  /** `sort_values(by=[category])`: ascending by category text. */
  function SortByCategory(rows: seq<Row>): (r: seq<Row>)
    ensures multiset(r) == multiset(rows)
    ensures SortedByCategory(r)
    decreases |rows|
  {
    if rows == [] then []
    else
      var init := rows[..|rows| - 1];
      assert rows == init + [rows[|rows| - 1]];
      InsertSorted(SortByCategory(init), rows[|rows| - 1]);
      InsertByCategory(SortByCategory(init), rows[|rows| - 1])
  }

  // fix_categories

  /** The rows `fix_categories` recategorises: a listed payee whose
      category is empty or the text "nan". */
  predicate NeedsFix(r: Row, nameList: seq<string>)
  {
    r.name.Some? && r.name.value in nameList && (r.category.None? || r.category == Some("nan"))
  }

  /** The `.loc` assignment: the category cell of every row needing a fix
      becomes `newCategory`; nothing else changes, and the rows stay where
      they are. */
  function FixedRows(rows: seq<Row>, nameList: seq<string>, newCategory: string): (r: seq<Row>)
    ensures |r| == |rows|
    ensures forall i :: 0 <= i < |r| ==> r[i].amount == rows[i].amount && r[i].name == rows[i].name
    ensures forall i :: 0 <= i < |r| ==>
              r[i].category == if NeedsFix(rows[i], nameList) then Some(newCategory) else rows[i].category
  {
    seq(|rows|, i requires 0 <= i < |rows| =>
      if NeedsFix(rows[i], nameList) then rows[i].(category := Some(newCategory)) else rows[i])
  }

  /** Fixing twice changes nothing more, whatever the new category (a row
      set to "nan" is set to "nan" again). */
  lemma FixIdempotent(rows: seq<Row>, nameList: seq<string>, newCategory: string)
    ensures FixedRows(FixedRows(rows, nameList, newCategory), nameList, newCategory)
         == FixedRows(rows, nameList, newCategory)
  {
    var once := FixedRows(rows, nameList, newCategory);
    var twice := FixedRows(once, nameList, newCategory);
    forall i | 0 <= i < |rows| ensures twice[i] == once[i] {
    }
  }

  /** The table is not sorted again afterwards: a sorted table can leave
      `fix_categories` unsorted. */
  lemma FixCanUnsort()
    ensures var rows := [Row(Some("nan"), Some(100), Some("BIT")), Row(Some("x"), Some(200), Some("shop"))];
            SortedByCategory(rows) && !SortedByCategory(FixedRows(rows, ["BIT"], "תשלומים"))
  {
    var rows := [Row(Some("nan"), Some(100), Some("BIT")), Row(Some("x"), Some(200), Some("shop"))];
    assert LexLt("nan", "x");
    var fixed := FixedRows(rows, ["BIT"], "תשלומים");
    assert CategoryText(fixed[0]) == "תשלומים" && CategoryText(fixed[1]) == "x";
    assert !LexLe("תשלומים", "x");
  }

  // calculate_category_sums

  /** One row of `groupby(category)[amount].sum()`. */
  datatype Group = Group(category: string, total: int)

  /** `sum()` skips an empty amount. */
  function AmountValue(r: Row): int
  {
    r.amount.GetOr(0)
  }

  ghost predicate Ascending(sums: seq<Group>)
  {
    forall i, j :: 0 <= i < j < |sums| ==> LexLt(sums[i].category, sums[j].category)
  }

  function Keys(sums: seq<Group>): set<string>
  {
    set g | g in sums :: g.category
  }

  /** The total recorded for `k`, zero when absent. */
  function Lookup(sums: seq<Group>, k: string): int
    decreases |sums|
  {
    if sums == [] then 0
    else if sums[0].category == k then sums[0].total
    else Lookup(sums[1..], k)
  }

  function SumTotals(sums: seq<Group>): int
    decreases |sums|
  {
    if sums == [] then 0 else sums[0].total + SumTotals(sums[1..])
  }

  /** Adds `v` to the group of `k`, opening it in its sorted place. */
  function AddTo(sums: seq<Group>, k: string, v: int): (r: seq<Group>)
    ensures Keys(r) == Keys(sums) + {k}
    ensures SumTotals(r) == SumTotals(sums) + v
    decreases |sums|
  {
    if sums == [] then
      Cons(Group(k, v), []);
      [Group(k, v)]
    else
      var rest := sums[1..];
      Cons(sums[0], rest);
      assert [sums[0]] + rest == sums;
      if sums[0].category == k then
        Cons(Group(k, sums[0].total + v), rest);
        [Group(k, sums[0].total + v)] + rest
      else if LexLt(k, sums[0].category) then
        Cons(Group(k, v), sums);
        [Group(k, v)] + sums
      else
        var t := AddTo(rest, k, v);
        Cons(sums[0], t);
        [sums[0]] + t
  }

  /** The keys and the sum of totals of a list with one group in front. */
  lemma Cons(g: Group, sums: seq<Group>)
    ensures Keys([g] + sums) == {g.category} + Keys(sums)
    ensures SumTotals([g] + sums) == g.total + SumTotals(sums)
  {
    assert ([g] + sums)[1..] == sums;
    forall c | c in Keys(sums) ensures c in Keys([g] + sums) {
      var h :| h in sums && h.category == c;
      assert h in [g] + sums;
    }
  }

  lemma AscendingTail(sums: seq<Group>)
    requires Ascending(sums) && sums != []
    ensures Ascending(sums[1..])
    ensures forall g :: g in sums[1..] ==> LexLt(sums[0].category, g.category)
    ensures sums[0].category !in Keys(sums[1..])
  {
    var rest := sums[1..];
    forall i, j | 0 <= i < j < |rest| ensures LexLt(rest[i].category, rest[j].category) {
      assert rest[i] == sums[i + 1] && rest[j] == sums[j + 1];
    }
    LexLtIrreflexive(sums[0].category);
  }

  lemma {:induction false} AddToAscending(sums: seq<Group>, k: string, v: int)
    requires Ascending(sums)
    ensures Ascending(AddTo(sums, k, v))
    decreases |sums|
  {
    if sums != [] {
      var first := sums[0].category;
      var rest := sums[1..];
      AscendingTail(sums);
      if first == k {
        ConsAscending(Group(k, sums[0].total + v), rest);
      } else if LexLt(k, first) {
        HeadAbove(sums, k);
        ConsAscending(Group(k, v), sums);
      } else {
        LexLtTrichotomy(k, first);
        AddToAscending(rest, k, v);
        var t := AddTo(rest, k, v);
        KeysAbove(t, first);
        ConsAscending(sums[0], t);
      }
    }
  }

  /** Every category in `sums` lies strictly above `low`. */
  ghost predicate AllAbove(sums: seq<Group>, low: string)
  {
    forall j :: 0 <= j < |sums| ==> LexLt(low, sums[j].category)
  }

  lemma ConsAscending(g: Group, t: seq<Group>)
    requires Ascending(t) && AllAbove(t, g.category)
    ensures Ascending([g] + t)
  {
    var r := [g] + t;
    forall i, j | 0 <= i < j < |r| ensures LexLt(r[i].category, r[j].category) {
      assert r[j] == t[j - 1];
      if i > 0 {
        assert r[i] == t[i - 1];
      }
    }
  }

  lemma HeadAbove(sums: seq<Group>, low: string)
    requires Ascending(sums) && sums != [] && LexLt(low, sums[0].category)
    ensures AllAbove(sums, low)
  {
    forall j | 0 <= j < |sums| ensures LexLt(low, sums[j].category) {
      if j > 0 {
        LexLtTransitive(low, sums[0].category, sums[j].category);
      }
    }
  }

  lemma KeysAbove(t: seq<Group>, low: string)
    requires forall c :: c in Keys(t) ==> LexLt(low, c)
    ensures AllAbove(t, low)
  {
    forall j | 0 <= j < |t| ensures LexLt(low, t[j].category) {
      assert t[j] in t;
    }
  }

  lemma {:induction false} AddToLookup(sums: seq<Group>, k: string, v: int)
    requires Ascending(sums)
    ensures forall j :: j != k ==> Lookup(AddTo(sums, k, v), j) == Lookup(sums, j)
    ensures Lookup(AddTo(sums, k, v), k) == Lookup(sums, k) + v
    decreases |sums|
  {
    if sums == [] {
      assert [Group(k, v)][1..] == [];
    } else {
      var first := sums[0].category;
      var rest := sums[1..];
      AscendingTail(sums);
      if first == k {
        assert ([Group(k, sums[0].total + v)] + rest)[1..] == rest;
      } else if LexLt(k, first) {
        forall g | g in sums ensures g.category != k {
          LexLtIrreflexive(k);
          if g != sums[0] {
            LexLtTransitive(k, first, g.category);
          }
        }
        LookupAbsent(sums, k);
        assert ([Group(k, v)] + sums)[1..] == sums;
      } else {
        AddToLookup(rest, k, v);
        assert ([sums[0]] + AddTo(rest, k, v))[1..] == AddTo(rest, k, v);
      }
    }
  }

  lemma {:induction false} LookupAbsent(sums: seq<Group>, k: string)
    requires k !in Keys(sums)
    ensures Lookup(sums, k) == 0
    decreases |sums|
  {
    if sums != [] {
      assert Keys(sums[1..]) <= Keys(sums);
      LookupAbsent(sums[1..], k);
    }
  }

  /** The categories present: a row with an empty category joins no group. */
  function CategoriesOf(rows: seq<Row>): set<string>
  {
    set t | t in rows && t.category.Some? :: t.category.value
  }

  /** The amount spent under `k`. */
  function CategorySum(rows: seq<Row>, k: string): int
    decreases |rows|
  {
    if rows == [] then 0
    else
      var last := rows[|rows| - 1];
      CategorySum(rows[..|rows| - 1], k) + (if last.category == Some(k) then AmountValue(last) else 0)
  }

  /** The amount of every row with a category. */
  function GroupedTotal(rows: seq<Row>): int
    decreases |rows|
  {
    if rows == [] then 0
    else
      var last := rows[|rows| - 1];
      GroupedTotal(rows[..|rows| - 1]) + (if last.category.Some? then AmountValue(last) else 0)
  }

  /** `groupby(category)[amount].sum().reset_index()`: one group per
      category present, in ascending category order, each holding its
      category's sum; together they hold the amount of every grouped row. */
  function CategorySums(rows: seq<Row>): (sums: seq<Group>)
    ensures Ascending(sums)
    ensures Keys(sums) == CategoriesOf(rows)
    ensures forall k :: Lookup(sums, k) == CategorySum(rows, k)
    ensures SumTotals(sums) == GroupedTotal(rows)
    decreases |rows|
  {
    if rows == [] then []
    else
      var init := rows[..|rows| - 1];
      var last := rows[|rows| - 1];
      assert rows == init + [last];
      var sums := CategorySums(init);
      assert CategoriesOf(rows) == CategoriesOf(init) + (if last.category.Some? then {last.category.value} else {});
      match last.category
      case None => sums
      case Some(k) =>
        AddToAscending(sums, k, AmountValue(last));
        AddToLookup(sums, k, AmountValue(last));
        AddTo(sums, k, AmountValue(last))
  }

  // top_5_amounts

  /** `nlargest(5, amount)` over the rows with an amount (the others are
      ignored): five rows (fewer when there are fewer), largest amount
      first, none smaller than a row left out, rows of equal amount in table
      order. */
  function TopAmounts(rows: seq<Row>): (top: seq<Row>)
    ensures |top| == if |DropMissingAmount(rows)| < 5 then |DropMissingAmount(rows)| else 5
    ensures forall t :: t in top ==> t in rows && t.amount.Some?
    ensures Descending(top, AmountValue)
    ensures multiset(top) <= multiset(DropMissingAmount(rows))
    ensures forall t, u :: t in top && u in multiset(DropMissingAmount(rows)) - multiset(top) ==> AmountValue(t) >= AmountValue(u)
    ensures forall k :: WithKey(top, AmountValue, k) <= WithKey(DropMissingAmount(rows), AmountValue, k)
  {
    var candidates := DropMissingAmount(rows);
    var top := TopN(candidates, AmountValue, 5);
    forall t | t in top ensures t in candidates {
      assert t in multiset(top);
    }
    top
  }

  /** The processor: `df` is empty until the sheet is processed. */
  class ExcelProcessor {
    var df: Option<seq<Row>>

    /** `__init__`: the sheet is loaded (given here as `loaded`) and
        processed at once. */
    constructor(loaded: seq<Row>)
      ensures df.Some?
      ensures multiset(df.value) == multiset(Cleaned(loaded))
      ensures SortedByCategory(df.value)
    {
      df := None;
      new;
      ProcessExcel(loaded);
    }

    /** `_validate_dataframe`: fails exactly when nothing was processed. */
    method ValidateDataframe() returns (o: Outcome<Error>)
      ensures o.Fail? <==> df.None?
      ensures o.Fail? ==> o.error == ValueError(NotProcessed)
    {
      if df.None? {
        return Fail(ValueError(NotProcessed));
      }
      return Pass;
    }

    /** `process_excel` after the load: the category column becomes text,
        rows without an amount go, and the rest are sorted by category. The
        order among equal categories is not promised. */
    method ProcessExcel(loaded: seq<Row>)
      modifies this
      ensures df.Some?
      ensures multiset(df.value) == multiset(Cleaned(loaded))
      ensures SortedByCategory(df.value)
    {
      df := Some(CategoriesAsText(loaded));
      df := Some(DropMissingAmount(df.value));
      df := Some(SortByCategory(df.value));
    }

    /** `fix_categories`: validates, then recategorises in place. */
    method FixCategories(nameList: seq<string>, newCategory: string) returns (o: Outcome<Error>)
      modifies this
      ensures old(df).None? ==> o == Fail(ValueError(NotProcessed)) && df == old(df)
      ensures old(df).Some? ==> o.Pass? && df == Some(FixedRows(old(df).value, nameList, newCategory))
    {
      o := ValidateDataframe();
      if o.Fail? {
        return;
      }
      df := Some(FixedRows(df.value, nameList, newCategory));
    }

    /** `calculate_category_sums`: validates, then groups. */
    method CalculateCategorySums() returns (r: Result<seq<Group>, Error>)
      ensures df.None? ==> r == Failure(ValueError(NotProcessed))
      ensures df.Some? ==> r.Success? && Ascending(r.value) && Keys(r.value) == CategoriesOf(df.value)
      ensures df.Some? ==> forall k :: Lookup(r.value, k) == CategorySum(df.value, k)
      ensures df.Some? ==> SumTotals(r.value) == GroupedTotal(df.value)
    {
      var v := ValidateDataframe();
      if v.Fail? {
        return Failure(v.error);
      }
      return Success(CategorySums(df.value));
    }

    /** `top_5_amounts`: no validation, so an unprocessed table fails on the
        missing table itself. */
    method Top5Amounts() returns (r: Result<seq<Row>, Error>)
      ensures df.None? ==> r == Failure(AttributeError)
      ensures df.Some? ==> r == Success(TopAmounts(df.value))
    {
      if df.None? {
        return Failure(AttributeError);
      }
      return Success(TopAmounts(df.value));
    }
  }
}

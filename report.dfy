/** The report stage's aggregation (the body of `main` in generate_report.py,
    without the file handling): one summary per declared category, the grand
    totals, the categories by total, the top-five sections, the Wolt and
    largest-subscription insights, the notable-spending list, and the
    per-category listing with its `=SUM(...)` formula. Amounts are in agorot;
    averages and percentages are exact reals. */
module Report {
  import opened Wrappers
  import opened Text
  import opened Decimal
  import opened Sorting
  import ReportRules

  /** A row of the cleaned table: payee name, amount, original category. */
  datatype Txn = Txn(name: Option<string>, amount: int, category: Option<string>)

  /** A member transaction as a summary lists it: (payee, price). */
  datatype Entry = Entry(name: Option<string>, price: int)

  datatype Summary = Summary(total: int, count: nat, avg: real, percent: real, transactions: seq<Entry>)

  /** The summary of a category no row maps to. */
  const Zero := Summary(0, 0, 0.0, 0.0, [])

  /** Shorthand for the rent label, which most of the report singles out. */
  const Rent := ReportRules.RentAndUtilities

  /** A row with its `MappedCategory` column. */
  datatype Row = Row(name: Option<string>, amount: int, category: Option<string>, mapped: string)

  /** `df['MappedCategory'] = df.apply(map_category, axis=1)`: every row gets
      its label, which is always a declared category. */
  function WithMappedCategory(txns: seq<Txn>): (rows: seq<Row>)
    ensures |rows| == |txns|
    ensures forall i :: 0 <= i < |rows| ==>
              rows[i] == Row(txns[i].name, txns[i].amount, txns[i].category,
                             ReportRules.MapCategory(txns[i].category, txns[i].name, txns[i].amount))
    ensures forall r :: r in rows ==> r.mapped in ReportRules.Categories
  {
    seq(|txns|, i requires 0 <= i < |txns| =>
      Row(txns[i].name, txns[i].amount, txns[i].category,
          ReportRules.MapCategory(txns[i].category, txns[i].name, txns[i].amount)))
  }

  /** Every label of the table is one of `cats`. */
  ghost predicate Labelled(rows: seq<Row>, cats: seq<string>)
  {
    forall r :: r in rows ==> r.mapped in cats
  }

  function Sum(rows: seq<Row>): int
    decreases |rows|
  {
    if rows == [] then 0 else Sum(rows[..|rows| - 1]) + rows[|rows| - 1].amount
  }

  /** The rows filed under `c`, in table order: one group of the groupby,
      holding every copy of a repeated row. */
  function Members(rows: seq<Row>, c: string): (g: seq<Row>)
    ensures forall t :: t in g <==> t in rows && t.mapped == c
  {
    FilterCount(rows, FiledUnder(c));
    Filter(rows, FiledUnder(c))
  }

  function FiledUnder(c: string): Row -> bool
  {
    (t: Row) => t.mapped == c
  }

  /** A group holds every copy of each row filed under its category, and
      lists them in table order. */
  lemma MembersInOrder(rows: seq<Row>, c: string)
    ensures forall t :: multiset(Members(rows, c))[t] == if t.mapped == c then multiset(rows)[t] else 0
    ensures exists idx :: PicksAt(Members(rows, c), rows, idx)
  {
    FilterCount(rows, FiledUnder(c));
    FilterOrder(rows, FiledUnder(c));
    var idx :| PicksAt(Filter(rows, FiledUnder(c)), rows, idx);
    assert PicksAt(Members(rows, c), rows, idx);
  }

  function Entries(g: seq<Row>): (es: seq<Entry>)
  {
    seq(|g|, i requires 0 <= i < |g| => Entry(g[i].name, g[i].amount))
  }

  /** `total / total_spent * 100`, or 0 when nothing was spent. */
  function Percent(total: int, totalSpent: int): real
  {
    if totalSpent > 0 then total as real / totalSpent as real * 100.0 else 0.0
  }

  /** What the report keeps for category `c`. */
  function SummaryFor(rows: seq<Row>, c: string, totalSpent: int): Summary
  {
    SummaryOf(Members(rows, c), totalSpent)
  }

  /** The summary of one group of rows. */
  function SummaryOf(g: seq<Row>, totalSpent: int): Summary
  {
    if |g| == 0 then Zero
    else Summary(Sum(g), |g|, Sum(g) as real / |g| as real, Percent(Sum(g), totalSpent), Entries(g))
  }

  /** The groupby keys: every label some row maps to. */
  function GroupKeys(rows: seq<Row>): set<string>
  {
    set t | t in rows :: t.mapped
  }

  /** The zero-filled `cat_summary`: one zero summary per listed category. */
  method ZeroSummaries(cats: seq<string>) returns (summary: map<string, Summary>)
    ensures forall c :: c in summary <==> c in cats
    ensures forall c :: c in summary ==> summary[c] == Zero
  {
    summary := map[];
    for i := 0 to |cats|
      invariant forall c :: c in summary <==> c in cats[..i]
      invariant forall c :: c in summary ==> summary[c] == Zero
    {
      assert cats[..i + 1] == cats[..i] + [cats[i]];
      summary := summary[cats[i] := Zero];
    }
    assert cats[..|cats|] == cats;
  }

  /** The summary of one non-empty group; its transaction list is built row
      by row in table order. */
  method GroupSummary(rows: seq<Row>, cat: string, totalSpent: int) returns (s: Summary)
    requires cat in GroupKeys(rows)
    ensures s == SummaryFor(rows, cat, totalSpent)
  {
    var group := Members(rows, cat);
    var total := Sum(group);
    var count := |group|;
    var avg := if count > 0 then total as real / count as real else 0.0;
    var percent := if totalSpent > 0 then total as real / totalSpent as real * 100.0 else 0.0;
    var transList := [];
    for j := 0 to |group|
      invariant transList == Entries(group[..j])
    {
      transList := transList + [Entry(group[j].name, group[j].amount)];
    }
    assert group[..|group|] == group;
    s := Summary(total, count, avg, percent, transList);
  }

  /** Builds `cat_summary`: a zero summary for every listed category, then
      each group's summary over it (a label that is not listed gets an entry
      of its own). Groups are taken in no particular order; the result does
      not depend on it. */
  method Summarize(rows: seq<Row>, cats: seq<string>, totalSpent: int) returns (summary: map<string, Summary>)
    ensures forall c :: c in summary <==> c in cats || c in GroupKeys(rows)
    ensures forall c :: c in summary ==> summary[c] == SummaryFor(rows, c, totalSpent)
  {
    summary := ZeroSummaries(cats);
    var groups := GroupKeys(rows);
    ghost var done: set<string> := {};
    while groups != {}
      invariant Progress(summary, rows, cats, totalSpent, groups, done)
      decreases |groups|
    {
      var cat :| cat in groups;
      var s := GroupSummary(rows, cat, totalSpent);
      ProgressStep(summary, rows, cats, totalSpent, groups, done, cat, s);
      summary := summary[cat := s];
      groups := groups - {cat};
      done := done + {cat};
    }
    FillDone(summary, rows, cats, totalSpent, done);
  }

  /** The loop state of Summarize: the categories still `pending` and those
      `done` split the groups; the keys of `summary` are the listed
      categories and those done; a done category holds its summary and any
      other its zero summary. */
  ghost predicate Progress(summary: map<string, Summary>, rows: seq<Row>, cats: seq<string>, totalSpent: int,
                           pending: set<string>, done: set<string>)
  {
    && pending !! done && pending + done == GroupKeys(rows)
    && (forall c :: c in summary <==> c in cats || c in done)
    && (forall c :: c in summary ==> summary[c] == (if c in done then SummaryFor(rows, c, totalSpent) else Zero))
  }

  lemma ProgressStep(summary: map<string, Summary>, rows: seq<Row>, cats: seq<string>, totalSpent: int,
                     pending: set<string>, done: set<string>, cat: string, s: Summary)
    requires Progress(summary, rows, cats, totalSpent, pending, done)
    requires cat in pending && s == SummaryFor(rows, cat, totalSpent)
    ensures Progress(summary[cat := s], rows, cats, totalSpent, pending - {cat}, done + {cat})
  {
  }

  lemma FillDone(summary: map<string, Summary>, rows: seq<Row>, cats: seq<string>, totalSpent: int, done: set<string>)
    requires Progress(summary, rows, cats, totalSpent, {}, done)
    ensures forall c :: c in summary <==> c in cats || c in GroupKeys(rows)
    ensures forall c :: c in summary ==> summary[c] == SummaryFor(rows, c, totalSpent)
  {
    forall c | c in summary && c !in done ensures SummaryFor(rows, c, totalSpent) == Zero {
      MembersEmpty(rows, c);
    }
  }

  /** What a summary holds: its rows' total and count, their mean, and its
      share of the amount spent; a category no row maps to keeps the zero
      summary. */
  lemma SummaryMeaning(rows: seq<Row>, c: string, totalSpent: int)
    ensures var s := SummaryFor(rows, c, totalSpent);
            && s.total == CategoryTotal(rows, c) && s.count == CategoryCount(rows, c)
            && (s.count > 0 ==> s.avg * s.count as real == s.total as real)
            && (totalSpent > 0 ==> s.percent * totalSpent as real == s.total as real * 100.0)
            && (totalSpent <= 0 ==> s.percent == 0.0)
            && ((forall t :: t in rows ==> t.mapped != c) ==> s == Zero)
  {
    SummaryFields(rows, c, totalSpent);
    SummaryProducts(rows, c, totalSpent);
    if forall t :: t in rows ==> t.mapped != c {
      NoRowsZero(rows, c, totalSpent);
    }
  }

  lemma SummaryFields(rows: seq<Row>, c: string, totalSpent: int)
    ensures var s := SummaryFor(rows, c, totalSpent);
            && s.total == CategoryTotal(rows, c) && s.count == CategoryCount(rows, c)
            && (s.count > 0 ==> s.avg == s.total as real / s.count as real)
            && s.percent == Percent(s.total, totalSpent)
  {
  }

  lemma NoRowsZero(rows: seq<Row>, c: string, totalSpent: int)
    requires forall t :: t in rows ==> t.mapped != c
    ensures SummaryFor(rows, c, totalSpent) == Zero
  {
    MembersEmpty(rows, c);
  }

  lemma SummaryProducts(rows: seq<Row>, c: string, totalSpent: int)
    ensures var s := SummaryFor(rows, c, totalSpent);
            && (s.count > 0 ==> s.avg * s.count as real == s.total as real)
            && (totalSpent > 0 ==> s.percent * totalSpent as real == s.total as real * 100.0)
            && (totalSpent <= 0 ==> s.percent == 0.0)
  {
    GroupProducts(Members(rows, c), totalSpent);
  }

  lemma GroupProducts(g: seq<Row>, totalSpent: int)
    ensures var s := SummaryOf(g, totalSpent);
            && (s.count > 0 ==> s.avg * s.count as real == s.total as real)
            && (totalSpent > 0 ==> s.percent * totalSpent as real == s.total as real * 100.0)
            && (totalSpent <= 0 ==> s.percent == 0.0)
  {
    var s := SummaryOf(g, totalSpent);
    if g != [] {
      assert s.avg == s.total as real / s.count as real;
    }
    SummaryArith(s, totalSpent);
  }

  /** The mean and the share of a summary, as products. */
  lemma SummaryArith(s: Summary, totalSpent: int)
    requires s.count > 0 ==> s.avg == s.total as real / s.count as real
    requires s.percent == Percent(s.total, totalSpent)
    ensures s.count > 0 ==> s.avg * s.count as real == s.total as real
    ensures totalSpent > 0 ==> s.percent * totalSpent as real == s.total as real * 100.0
    ensures totalSpent <= 0 ==> s.percent == 0.0
  {
    if s.count > 0 {
      MeanTimesCount(s.total, s.count);
    }
    PercentShare(s.total, totalSpent);
  }

  lemma MeanTimesCount(total: int, n: int)
    requires n > 0
    ensures total as real / n as real * n as real == total as real
  {
  }

  lemma PercentShare(total: int, totalSpent: int)
    ensures totalSpent > 0 ==> Percent(total, totalSpent) * totalSpent as real == total as real * 100.0
    ensures totalSpent <= 0 ==> Percent(total, totalSpent) == 0.0
  {
    if totalSpent > 0 {
      var q := total as real / totalSpent as real;
      assert q * totalSpent as real == total as real;
      calc {
        Percent(total, totalSpent) * totalSpent as real;
        q * 100.0 * totalSpent as real;
        q * totalSpent as real * 100.0;
        total as real * 100.0;
      }
    }
  }

  lemma {:induction false} MembersEmpty(rows: seq<Row>, c: string)
    requires c !in GroupKeys(rows)
    ensures Members(rows, c) == []
    decreases |rows|
  {
    if rows != [] {
      var init := rows[..|rows| - 1];
      assert GroupKeys(init) <= GroupKeys(rows);
      MembersEmpty(init, c);
    }
  }

  // Grand totals: the category totals and counts add up to the table's.

  function CategoryTotal(rows: seq<Row>, c: string): int
  {
    Sum(Members(rows, c))
  }

  function TotalOver(cats: seq<string>, rows: seq<Row>): int
    decreases |cats|
  {
    if cats == [] then 0 else CategoryTotal(rows, cats[0]) + TotalOver(cats[1..], rows)
  }

  function CategoryCount(rows: seq<Row>, c: string): nat
  {
    |Members(rows, c)|
  }

  function CountOver(cats: seq<string>, rows: seq<Row>): int
    decreases |cats|
  {
    if cats == [] then 0 else CategoryCount(rows, cats[0]) + CountOver(cats[1..], rows)
  }

  ghost predicate Distinct(cats: seq<string>)
  {
    forall i, j :: 0 <= i < j < |cats| ==> cats[i] != cats[j]
  }

  lemma CategoriesDistinct()
    ensures Distinct(ReportRules.Categories)
  {
  }

  lemma {:induction false} OverStep(cats: seq<string>, rows: seq<Row>, t: Row)
    requires Distinct(cats)
    ensures TotalOver(cats, rows + [t]) == TotalOver(cats, rows) + (if t.mapped in cats then t.amount else 0)
    ensures CountOver(cats, rows + [t]) == CountOver(cats, rows) + (if t.mapped in cats then 1 else 0)
    decreases |cats|
  {
    var rows' := rows + [t];
    assert rows'[..|rows'| - 1] == rows;
    if cats != [] {
      OverStep(cats[1..], rows, t);
      var g := Members(rows, cats[0]);
      if t.mapped == cats[0] {
        assert (g + [t])[..|g|] == g;
        assert t.mapped !in cats[1..];
      } else {
        assert g + [] == g;
      }
    }
  }

  /** When every row's label is one of `cats` (listed without repeats), the
      totals of `cats` add up to the amount spent and their counts to the
      number of rows. */
  lemma {:induction false} TotalsOver(cats: seq<string>, rows: seq<Row>)
    requires Distinct(cats)
    requires forall r :: r in rows ==> r.mapped in cats
    ensures TotalOver(cats, rows) == Sum(rows)
    ensures CountOver(cats, rows) == |rows|
    decreases |rows|
  {
    if rows == [] {
      ZeroOver(cats);
    } else {
      var init := rows[..|rows| - 1];
      var last := rows[|rows| - 1];
      assert rows == init + [last];
      TotalsOver(cats, init);
      OverStep(cats, init, last);
    }
  }

  /** Every row maps to a declared category, so the per-category totals add
      up to `total_spent` and the per-category counts to `total_transactions`. */
  lemma GrandTotals(rows: seq<Row>)
    requires Labelled(rows, ReportRules.Categories)
    ensures TotalOver(ReportRules.Categories, rows) == Sum(rows)
    ensures CountOver(ReportRules.Categories, rows) == |rows|
  {
    DeclaredTotals(ReportRules.Categories, rows);
  }

  lemma DeclaredTotals(cats: seq<string>, rows: seq<Row>)
    requires cats == ReportRules.Categories && Labelled(rows, cats)
    ensures TotalOver(cats, rows) == Sum(rows) && CountOver(cats, rows) == |rows|
  {
    CategoriesDistinct();
    TotalsOver(cats, rows);
  }

  lemma {:induction false} ZeroOver(cats: seq<string>)
    ensures TotalOver(cats, []) == 0 && CountOver(cats, []) == 0
    decreases |cats|
  {
    if cats != [] {
      ZeroOver(cats[1..]);
    }
  }

  // The categories by total (`sorted_categories`) and the two top-five
  // sections.

  /** The total `cat_summary` holds for `c`; zero for a category it lacks. */
  function TotalIn(summary: map<string, Summary>, c: string): int
  {
    if c in summary then summary[c].total else 0
  }

  /** The sort key `lambda x: cat_summary[x]['total']`. */
  function ByTotal(summary: map<string, Summary>): string -> int
  {
    c => TotalIn(summary, c)
  }

  /** `sorted(CATEGORIES, key=..., reverse=True)`: the categories,
      largest total first, ties in declared order. */
  function SortedCategories(cats: seq<string>, summary: map<string, Summary>): (order: seq<string>)
    ensures multiset(order) == multiset(cats)
    ensures Descending(order, ByTotal(summary))
  {
    SortDesc(cats, ByTotal(summary))
  }

  /** Categories with equal totals keep their declared order. */
  lemma SortedCategoriesStable(cats: seq<string>, summary: map<string, Summary>, k: int)
    ensures WithKey(SortedCategories(cats, summary), ByTotal(summary), k) == WithKey(cats, ByTotal(summary), k)
  {
    SortDescStable(cats, ByTotal(summary), k);
  }

  /** `[c for c in cats if c != "Rent and Utilities"]`. */
  function WithoutRent(cats: seq<string>): (r: seq<string>)
    ensures forall c :: c in r <==> c in cats && c != Rent
    ensures multiset(r) <= multiset(cats)
  {
    FilterCount(cats, OtherThanRent);
    Filter(cats, OtherThanRent)
  }

  predicate OtherThanRent(c: string)
  {
    c != Rent
  }

  /** The list keeps every copy of each category other than rent, in the
      order of `cats`. */
  lemma WithoutRentInOrder(cats: seq<string>)
    ensures forall c :: multiset(WithoutRent(cats))[c] == if c != Rent then multiset(cats)[c] else 0
    ensures exists idx :: PicksAt(WithoutRent(cats), cats, idx)
  {
    FilterCount(cats, OtherThanRent);
    FilterOrder(cats, OtherThanRent);
    var idx :| PicksAt(Filter(cats, OtherThanRent), cats, idx);
    assert PicksAt(WithoutRent(cats), cats, idx);
  }

  /** "Top Spending Categories": the first five of `cats` other than rent,
      largest total first, none of them smaller than a category left out. */
  function TopCategories(cats: seq<string>, summary: map<string, Summary>): (top: seq<string>)
    ensures |top| == if |WithoutRent(cats)| < 5 then |WithoutRent(cats)| else 5
    ensures forall c :: c in top ==> c in cats && c != Rent
    ensures Descending(top, ByTotal(summary))
    ensures forall c, d :: c in top && d in cats && d != Rent && d !in top ==>
              TotalIn(summary, c) >= TotalIn(summary, d)
    ensures multiset(top) <= multiset(WithoutRent(cats))
    ensures forall k :: WithKey(top, ByTotal(summary), k) <= WithKey(WithoutRent(cats), ByTotal(summary), k)
  {
    var candidates := WithoutRent(cats);
    var top := TopN(candidates, ByTotal(summary), 5);
    LeftOut(candidates, top);
    top
  }

  /** With the declared categories the section always has five entries. */
  lemma FiveTopCategories(summary: map<string, Summary>)
    ensures |TopCategories(ReportRules.Categories, summary)| == 5
  {
    DeclaredWithoutRent(ReportRules.Categories);
  }

  lemma DeclaredWithoutRent(cats: seq<string>)
    requires cats == ReportRules.Categories
    ensures |WithoutRent(cats)| == 16
  {
    CategoriesDistinct();
    assert cats[15] == Rent;
    WithoutRentLength(cats);
  }

  /** Dropping rent from a list without repeats removes one entry at most. */
  lemma {:induction false} WithoutRentLength(cats: seq<string>)
    requires Distinct(cats)
    ensures |WithoutRent(cats)| == if Rent in cats then |cats| - 1 else |cats|
    decreases |cats|
  {
    if cats != [] {
      var init := cats[..|cats| - 1];
      var last := cats[|cats| - 1];
      assert cats == init + [last];
      assert Distinct(init) by {
        forall i, j | 0 <= i < j < |init| ensures init[i] != init[j] {
          assert init[i] == cats[i] && init[j] == cats[j];
        }
      }
      WithoutRentLength(init);
      if last == Rent {
        assert Rent !in init by {
          forall j | 0 <= j < |init| ensures init[j] != Rent {
            assert init[j] == cats[j];
          }
        }
      }
    }
  }

  /** What is in `xs` but not in `r` is in what TopN leaves out. */
  lemma LeftOut<T>(xs: seq<T>, r: seq<T>)
    requires multiset(r) <= multiset(xs)
    ensures forall y :: y in xs && y !in r ==> y in multiset(xs) - multiset(r)
    ensures forall x :: x in r ==> x in xs
  {
    forall x | x in r ensures x in xs {
      assert x in multiset(r);
    }
  }

  function AmountOf(t: Row): int
  {
    t.amount
  }

  /** `df[df['MappedCategory'] != "Rent and Utilities"]`, in table order. */
  function NonRentRows(rows: seq<Row>): (r: seq<Row>)
    ensures forall t :: t in r <==> t in rows && t.mapped != Rent
    ensures multiset(r) <= multiset(rows)
  {
    FilterCount(rows, NotRent);
    Filter(rows, NotRent)
  }

  predicate NotRent(t: Row)
  {
    t.mapped != Rent
  }

  /** The candidates for the top expenses are every copy of each non-rent
      row, in table order. */
  lemma NonRentRowsInOrder(rows: seq<Row>)
    ensures forall t :: multiset(NonRentRows(rows))[t] == if t.mapped != Rent then multiset(rows)[t] else 0
    ensures exists idx :: PicksAt(NonRentRows(rows), rows, idx)
  {
    FilterCount(rows, NotRent);
    FilterOrder(rows, NotRent);
    var idx :| PicksAt(Filter(rows, NotRent), rows, idx);
    assert PicksAt(NonRentRows(rows), rows, idx);
  }

  /** "Top Individual Expenses" (`nlargest(5, ...)` of the non-rent rows):
      at most five of them, largest first, none smaller than a row left out. */
  function TopExpenses(rows: seq<Row>): (top: seq<Row>)
    ensures |top| == if |NonRentRows(rows)| < 5 then |NonRentRows(rows)| else 5
    ensures forall t :: t in top ==> t in rows && t.mapped != Rent
    ensures Descending(top, AmountOf)
    ensures forall t, u :: t in top && u in multiset(NonRentRows(rows)) - multiset(top) ==> t.amount >= u.amount
    ensures multiset(top) <= multiset(NonRentRows(rows))
    ensures forall k :: WithKey(top, AmountOf, k) <= WithKey(NonRentRows(rows), AmountOf, k)
  {
    var candidates := NonRentRows(rows);
    var top := TopN(candidates, AmountOf, 5);
    LeftOut(candidates, top);
    top
  }

  /** The section shows "No expenses found" exactly when every row is rent. */
  lemma NoTopExpenses(rows: seq<Row>)
    ensures TopExpenses(rows) == [] <==> forall t :: t in rows ==> t.mapped == Rent
  {
    if TopExpenses(rows) == [] {
      assert NonRentRows(rows) == [];
    } else {
      var t := TopExpenses(rows)[0];
      assert t in TopExpenses(rows);
    }
  }

  // Key insights: Wolt, largest subscription, notable spending.

  /** `str.contains("wolt", case=False, na=False)`. */
  predicate MentionsWolt(name: Option<string>)
  {
    name.Some? && Contains(LowerStr(name.value), "wolt")
  }

  /** The Wolt orders, in table order, every copy of a repeated row kept:
      their number is `wolt_count`. */
  function WoltRows(rows: seq<Row>): (r: seq<Row>)
    ensures forall t :: t in r <==> t in rows && MentionsWolt(t.name)
    ensures |r| <= |rows|
  {
    FilterCount(rows, WoltOrder);
    Filter(rows, WoltOrder)
  }

  predicate WoltOrder(t: Row)
  {
    MentionsWolt(t.name)
  }

  /** The Wolt orders are every copy of each row that mentions Wolt, in
      table order. */
  lemma WoltRowsInOrder(rows: seq<Row>)
    ensures forall t :: multiset(WoltRows(rows))[t] == if MentionsWolt(t.name) then multiset(rows)[t] else 0
    ensures exists idx :: PicksAt(WoltRows(rows), rows, idx)
  {
    FilterCount(rows, WoltOrder);
    FilterOrder(rows, WoltOrder);
    var idx :| PicksAt(Filter(rows, WoltOrder), rows, idx);
    assert PicksAt(WoltRows(rows), rows, idx);
  }

  /** The test ignores case: a name and its lower-cased form agree. */
  lemma WoltIgnoresCase(name: string)
    ensures MentionsWolt(Some(name)) == MentionsWolt(Some(LowerStr(name)))
  {
    LowerStrIdempotent(name);
  }

  /** Wolt's share of "Eating Out", guarded against a non-positive total. */
  function WoltShare(woltTotal: int, eatingOutTotal: int): (share: real)
    ensures eatingOutTotal <= 0 ==> share == 0.0
    ensures eatingOutTotal > 0 ==> share * eatingOutTotal as real == woltTotal as real * 100.0
  {
    if eatingOutTotal > 0 then woltTotal as real / eatingOutTotal as real * 100.0 else 0.0
  }

  /** The position of the first largest amount: `idxmax`. */
  function FirstMax(s: seq<Row>): (i: nat)
    requires |s| > 0
    ensures i < |s|
    ensures forall j :: 0 <= j < |s| ==> s[j].amount <= s[i].amount
    ensures forall j :: 0 <= j < i ==> s[j].amount < s[i].amount
    decreases |s|
  {
    if |s| == 1 then 0
    else
      var k := FirstMax(s[..|s| - 1]);
      if s[|s| - 1].amount > s[k].amount then |s| - 1 else k
  }

  /** "Largest Subscription": present exactly when some row is a
      subscription; then it is one with the largest amount, the first such
      in table order. */
  function LargestSubscription(rows: seq<Row>): (r: Option<Entry>)
    ensures r.None? <==> forall t :: t in rows ==> t.mapped != ReportRules.Subscriptions
    ensures r.Some? ==> exists t :: t in rows && t.mapped == ReportRules.Subscriptions && r.value == Entry(t.name, t.amount)
    ensures r.Some? ==> forall t :: t in rows && t.mapped == ReportRules.Subscriptions ==> t.amount <= r.value.price
  {
    var subs := Members(rows, ReportRules.Subscriptions);
    if subs == [] then None
    else
      var i := FirstMax(subs);
      assert subs[i] in subs;
      Some(Entry(subs[i].name, subs[i].amount))
  }

  /** `idxmax` breaks ties by table order: the subscription shown is the
      first of the largest in the table. */
  lemma LargestSubscriptionFirst(rows: seq<Row>)
    ensures var r := LargestSubscription(rows);
            r.Some? ==> exists m :: 0 <= m < |rows| && rows[m].mapped == ReportRules.Subscriptions
                                    && r.value == Entry(rows[m].name, rows[m].amount)
                                    && forall j :: 0 <= j < m && rows[j].mapped == ReportRules.Subscriptions ==>
                                         rows[j].amount < rows[m].amount
  {
    var subs := Members(rows, ReportRules.Subscriptions);
    if subs != [] {
      var i := FirstMax(subs);
      assert subs[i] in subs;
      FirstMaxInTable(rows, ReportRules.Subscriptions);
    }
  }

  /** The first largest member of a group is, in the table, a row of the
      group before which every row of the group is smaller. */
  lemma FirstMaxInTable(rows: seq<Row>, c: string)
    requires Members(rows, c) != []
    ensures var g := Members(rows, c);
            exists m :: 0 <= m < |rows| && rows[m] == g[FirstMax(g)]
                        && forall j :: 0 <= j < m && rows[j].mapped == c ==> rows[j].amount < rows[m].amount
  {
    var g := Members(rows, c);
    var i := FirstMax(g);
    FilterPosition(rows, FiledUnder(c), i);
    var m :| 0 <= m < |rows| && rows[m] == g[i] && |Filter(rows[..m], FiledUnder(c))| == i;
    forall j | 0 <= j < m && rows[j].mapped == c ensures rows[j].amount < rows[m].amount {
      FilterBefore(rows, FiledUnder(c), m, j);
    }
  }

  /** The categories the notable-spending loop lists, in declared order. */
  function NotableIn(cats: seq<string>, summary: map<string, Summary>): (r: seq<string>)
    requires forall c :: c in cats ==> c in summary
    ensures forall c :: c in r <==> c in cats && c != Rent && summary[c].percent > 15.0
  {
    FilterCount(cats, NotableUnder(summary));
    Filter(cats, NotableUnder(summary))
  }

  function NotableUnder(summary: map<string, Summary>): string -> bool
  {
    (c: string) => Notable(summary, c)
  }

  /** The notable categories are listed as often as, and in the order in
      which, `cats` lists them. */
  lemma NotableInOrder(cats: seq<string>, summary: map<string, Summary>)
    requires forall c :: c in cats ==> c in summary
    ensures forall c :: multiset(NotableIn(cats, summary))[c] == if Notable(summary, c) then multiset(cats)[c] else 0
    ensures exists idx :: PicksAt(NotableIn(cats, summary), cats, idx)
  {
    FilterCount(cats, NotableUnder(summary));
    FilterOrder(cats, NotableUnder(summary));
    var idx :| PicksAt(Filter(cats, NotableUnder(summary)), cats, idx);
    assert PicksAt(NotableIn(cats, summary), cats, idx);
  }

  /** A category the notable-spending loop keeps. */
  predicate Notable(summary: map<string, Summary>, c: string)
  {
    c in summary && c != Rent && summary[c].percent > 15.0
  }

  /** "Notable Spending": skips rent, keeps each category over 15 percent and
      counts them (no category means the single fallback line). */
  method NotableSpending(cats: seq<string>, summary: map<string, Summary>) returns (notable: seq<string>, notableCount: nat)
    requires forall c :: c in cats ==> c in summary
    ensures notable == NotableIn(cats, summary)
    ensures notableCount == |notable|
  {
    notable := [];
    notableCount := 0;
    for i := 0 to |cats|
      invariant notable == NotableIn(cats[..i], summary)
      invariant notableCount == |notable|
    {
      assert cats[..i + 1][..i] == cats[..i];
      var cat := cats[i];
      if cat == Rent {
        continue;
      }
      var d := summary[cat];
      if d.percent > 15.0 {
        notable := notable + [cat];
        notableCount := notableCount + 1;
      }
    }
    assert cats[..|cats|] == cats;
  }

  /** A category is notable exactly when something was spent and its total
      exceeds three twentieths of it. */
  lemma NotableExactly(rows: seq<Row>, c: string)
    ensures var s := SummaryFor(rows, c, Sum(rows));
            s.percent > 15.0 <==> Sum(rows) > 0 && 20 * CategoryTotal(rows, c) > 3 * Sum(rows)
  {
    if |Members(rows, c)| > 0 && Sum(rows) > 0 {
      PercentAbove(CategoryTotal(rows, c), Sum(rows));
    }
  }

  lemma PercentAbove(total: int, spent: int)
    requires spent > 0
    ensures Percent(total, spent) > 15.0 <==> 20 * total > 3 * spent
  {
    var t := total as real;
    var sp := spent as real;
    var p := t / sp * 100.0;
    assert Percent(total, spent) == p;
    assert p * sp == t * 100.0;
    ScaleStrict(p, 15.0, sp);
    assert (20 * total > 3 * spent) == (t * 100.0 > 15.0 * sp);
  }

  /** Multiplying by a positive factor keeps a strict order. */
  lemma ScaleStrict(a: real, b: real, c: real)
    requires c > 0.0
    ensures a > b <==> a * c > b * c
  {
    assert a * c - b * c == (a - b) * c;
    if a > b {
      assert (a - b) * c > 0.0;
    } else {
      assert (b - a) * c >= 0.0;
    }
  }

  // The per-category listing and its `=SUM(...)` formula.

  /** A payee name as the f-string prints it: a missing one prints "nan". */
  function ShowName(name: Option<string>): string
  {
    match name
    case Some(n) => n
    case None => "nan"
  }

  /** The name a listed transaction shows: "Rent" for a rent-sized paybox
      transfer in the rent section, the payee otherwise. */
  function DisplayName(cat: string, e: Entry): (d: string)
    ensures d == "Rent" || d == ShowName(e.name)
    ensures d != ShowName(e.name) ==> cat == Rent && 290000 <= e.price <= 310000
  {
    if cat == Rent && 290000 <= e.price <= 310000 && e.name.Some? && Contains(LowerStr(e.name.value), "paybox")
    then "Rent"
    else ShowName(e.name)
  }

  /** A rent-section row always has a name, and shows "Rent" exactly when
      it is in the 2900-3100 range; an 800-900 transfer keeps its payee. */
  lemma RentDisplay(t: Txn)
    requires ReportRules.MapCategory(t.category, t.name, t.amount) == Rent
    ensures t.name.Some?
    ensures DisplayName(Rent, Entry(t.name, t.amount)) == "Rent" <==> 290000 <= t.amount <= 310000
  {
  }

  /** `- {name}: {price:.2f}₪`. */
  function EntryLine(cat: string, e: Entry): string
  {
    "- " + DisplayName(cat, e) + ": " + FormatCents(e.price) + "₪"
  }

  /** A listing line starts with the shown name and ends with a price that
      reads back as the amount. */
  lemma EntryLineParts(cat: string, e: Entry)
    ensures var l, d := EntryLine(cat, e), DisplayName(cat, e);
            |l| > |d| + 2 && l[..2] == "- " && l[2..|d| + 2] == d
    ensures var l, p := EntryLine(cat, e), FormatCents(e.price);
            |l| > |p| && l[|l| - 1] == '₪' && ParseCents(l[|l| - 1 - |p|..|l| - 1]) == Some(e.price)
  {
    var d := DisplayName(cat, e);
    var p := FormatCents(e.price);
    var l := EntryLine(cat, e);
    assert l[2..|d| + 2] == d;
    assert l[|l| - 1 - |p|..|l| - 1] == p;
    ParseFormatCents(e.price);
  }

  const NoEntries := "_No entries in this category_"

  function EntryLines(cat: string, es: seq<Entry>): seq<string>
  {
    seq(|es|, i requires 0 <= i < |es| => EntryLine(cat, es[i]))
  }

  /** The lines listed under a category heading. */
  function ListingFor(cat: string, s: Summary): (l: seq<string>)
    ensures |l| == if s.count > 0 then |s.transactions| else 1
    ensures s.count == 0 ==> l == [NoEntries]
    ensures s.count > 0 ==> forall i :: 0 <= i < |l| ==> l[i] == EntryLine(cat, s.transactions[i])
  {
    if s.count > 0 then EntryLines(cat, s.transactions) else [NoEntries]
  }

  /** The rendered prices, one per transaction, in group order. */
  function PricesOf(es: seq<Entry>): (ps: seq<string>)
    ensures |ps| == |es|
    ensures forall i :: 0 <= i < |ps| ==> ',' !in ps[i]
  {
    seq(|es|, i requires 0 <= i < |es| => FormatCents(es[i].price))
  }

  function Amounts(es: seq<Entry>): seq<int>
  {
    seq(|es|, i requires 0 <= i < |es| => es[i].price)
  }

  /** Lists the transactions of one category (or the placeholder line) and
      collects their rendered prices. */
  method RenderListing(cat: string, s: Summary) returns (listing: seq<string>, prices: seq<string>)
    ensures listing == ListingFor(cat, s)
    ensures prices == if s.count > 0 then PricesOf(s.transactions) else []
  {
    listing := [];
    prices := [];
    if s.count > 0 {
      for j := 0 to |s.transactions|
        invariant listing == EntryLines(cat, s.transactions[..j])
        invariant prices == PricesOf(s.transactions[..j])
      {
        ListingStep(cat, s.transactions, j);
        listing := listing + [EntryLine(cat, s.transactions[j])];
        prices := prices + [FormatCents(s.transactions[j].price)];
      }
      assert s.transactions[..|s.transactions|] == s.transactions;
    } else {
      listing := listing + [NoEntries];
    }
  }

  lemma ListingStep(cat: string, es: seq<Entry>, j: int)
    requires 0 <= j < |es|
    ensures EntryLines(cat, es[..j + 1]) == EntryLines(cat, es[..j]) + [EntryLine(cat, es[j])]
    ensures PricesOf(es[..j + 1]) == PricesOf(es[..j]) + [FormatCents(es[j].price)]
  {
  }

  /** `=SUM(p1,p2,...)`, or `=SUM(0)` for no prices. */
  function SumFormula(prices: seq<string>): (f: string)
    ensures |f| >= 6 && f[..5] == "=SUM(" && f[|f| - 1] == ')'
    ensures prices == [] ==> f == "=SUM(0)"
  {
    if prices != [] then "=SUM(" + Join(prices, ',') + ")" else "=SUM(0)"
  }

  function ParseAll(parts: seq<string>): Option<seq<int>>
    decreases |parts|
  {
    if parts == [] then Some([])
    else
      match ParseCents(parts[0])
      case None => None
      case Some(v) =>
        match ParseAll(parts[1..])
        case None => None
        case Some(rest) => Some([v] + rest)
  }

  /** Reads the amounts back out of a formula. */
  function ParseSumFormula(f: string): Option<seq<int>>
  {
    if f == "=SUM(0)" then Some([])
    else if |f| >= 6 && f[..5] == "=SUM(" && f[|f| - 1] == ')' then ParseAll(Split(f[5..|f| - 1], ','))
    else None
  }

  function SumInts(xs: seq<int>): int
    decreases |xs|
  {
    if xs == [] then 0 else SumInts(xs[..|xs| - 1]) + xs[|xs| - 1]
  }

  lemma {:induction false} ParseAllPrices(es: seq<Entry>)
    ensures ParseAll(PricesOf(es)) == Some(Amounts(es))
    decreases |es|
  {
    if es == [] {
      assert PricesOf(es) == [] && Amounts(es) == [];
    } else {
      var ps := PricesOf(es);
      PricesTail(es);
      ParseFormatCents(es[0].price);
      ParseAllPrices(es[1..]);
      assert ParseCents(ps[0]) == Some(es[0].price);
      assert ParseAll(ps) == Some([es[0].price] + Amounts(es[1..]));
    }
  }

  lemma PricesTail(es: seq<Entry>)
    requires es != []
    ensures PricesOf(es)[0] == FormatCents(es[0].price)
    ensures PricesOf(es)[1..] == PricesOf(es[1..])
    ensures Amounts(es) == [es[0].price] + Amounts(es[1..])
  {
  }

  /** The formula names every listed price, in order, and nothing else. */
  lemma FormulaReadsBack(es: seq<Entry>)
    ensures ParseSumFormula(SumFormula(PricesOf(es))) == Some(Amounts(es))
  {
    var ps := PricesOf(es);
    if es == [] {
      assert ps == [] && Amounts(es) == [];
    } else {
      var j := Join(ps, ',');
      var f := "=SUM(" + j + ")";
      assert SumFormula(ps) == f;
      FormulaShape(j, ps[0]);
      SplitJoin(ps, ',');
      ParseAllPrices(es);
    }
  }

  /** A formula around a join that starts with a rendered price. */
  lemma FormulaShape(j: string, first: string)
    requires |first| >= 4 && |j| >= |first|
    ensures var f := "=SUM(" + j + ")";
            f != "=SUM(0)" && |f| >= 6 && f[..5] == "=SUM(" && f[|f| - 1] == ')' && f[5..|f| - 1] == j
  {
    var f := "=SUM(" + j + ")";
    assert |f| == |j| + 6;
    assert f[5..|f| - 1] == j;
  }

  lemma {:induction false} SumEntries(g: seq<Row>)
    ensures SumInts(Amounts(Entries(g))) == Sum(g)
    decreases |g|
  {
    if g != [] {
      var init := g[..|g| - 1];
      SumEntries(init);
      assert Amounts(Entries(g))[..|g| - 1] == Amounts(Entries(init));
    }
  }

  /** The section's `=SUM(...)` formula adds up to the category total,
      including the `=SUM(0)` of an empty category. */
  lemma FormulaIsTotal(rows: seq<Row>, c: string, totalSpent: int)
    ensures var s := SummaryFor(rows, c, totalSpent);
            var f := SumFormula(if s.count > 0 then PricesOf(s.transactions) else []);
            ParseSumFormula(f).Some? && SumInts(ParseSumFormula(f).value) == s.total
  {
    var s := SummaryFor(rows, c, totalSpent);
    if s.count > 0 {
      FormulaReadsBack(s.transactions);
      SumEntries(Members(rows, c));
    } else {
      FormulaReadsBack([]);
    }
  }

  // The whole report.

  /** One category as the report shows it: its summary, its share of the
      transaction count (the overall-totals line), its listing and its
      formula. */
  datatype Section = Section(category: string, summary: Summary, countShare: real,
                             listing: seq<string>, formula: string)

  datatype Report = Report(
    totalSpent: int,
    totalTransactions: nat,
    summaries: map<string, Summary>,
    order: seq<string>,
    sections: seq<Section>,
    topExpenses: seq<Row>,
    topCategories: seq<string>,
    woltTotal: int,
    woltCount: nat,
    woltShare: real,
    notable: seq<string>,
    largestSubscription: Option<Entry>)

  /** The overall-totals line divides by the number of transactions. */
  datatype ReportError = ZeroDivisionError

  function SummaryIn(summary: map<string, Summary>, c: string): Summary
  {
    if c in summary then summary[c] else Zero
  }

  function SectionFor(cat: string, s: Summary, totalTransactions: nat): Section
    requires totalTransactions > 0
  {
    Section(cat, s, s.count as real / totalTransactions as real * 100.0,
            ListingFor(cat, s), SumFormula(if s.count > 0 then PricesOf(s.transactions) else []))
  }

  /** `cat_summary` after both loops: every listed category with the
      summary of its rows. */
  function SummariesOf(rows: seq<Row>, cats: seq<string>): map<string, Summary>
  {
    map c | c in cats :: SummaryFor(rows, c, Sum(rows))
  }

  /** The sections, in the given category order. */
  function Sections(order: seq<string>, summary: map<string, Summary>, totalTransactions: nat): (secs: seq<Section>)
    requires totalTransactions > 0
    ensures |secs| == |order|
    ensures forall i :: 0 <= i < |order| ==> secs[i].category == order[i]
  {
    seq(|order|, i requires 0 <= i < |order| => SectionFor(order[i], SummaryIn(summary, order[i]), totalTransactions))
  }

  lemma SectionsAppend(order: seq<string>, c: string, summary: map<string, Summary>, totalTransactions: nat)
    requires totalTransactions > 0
    ensures Sections(order + [c], summary, totalTransactions)
         == Sections(order, summary, totalTransactions) + [SectionFor(c, SummaryIn(summary, c), totalTransactions)]
  {
  }

  /** What the report holds for a non-empty table whose categories are
      `cats`. */
  function ReportOf(rows: seq<Row>, cats: seq<string>): (r: Report)
    requires |rows| > 0
    ensures r.totalSpent == Sum(rows) && r.totalTransactions == |rows|
    ensures forall c :: c in r.summaries <==> c in cats
    ensures forall c :: c in r.summaries ==> r.summaries[c] == SummaryFor(rows, c, Sum(rows))
    ensures multiset(r.order) == multiset(cats)
    ensures |r.sections| == |cats| && forall i :: 0 <= i < |cats| ==> r.sections[i].category == r.order[i]
    ensures |r.topExpenses| <= 5 && |r.topCategories| <= 5
  {
    var summaries := SummariesOf(rows, cats);
    var order := SortedCategories(cats, summaries);
    var woltRows := WoltRows(rows);
    assert |order| == |multiset(order)| == |multiset(cats)| == |cats|;
    Report(
      Sum(rows), |rows|, summaries, order,
      Sections(order, summaries, |rows|),
      TopExpenses(rows),
      TopCategories(cats, summaries),
      Sum(woltRows), |woltRows|, WoltShare(Sum(woltRows), SummaryIn(summaries, ReportRules.EatingOut).total),
      NotableIn(cats, summaries),
      LargestSubscription(rows))
  }

  /** The summary map Summarize builds from labelled rows is SummariesOf. */
  lemma SummarizedRows(rows: seq<Row>, cats: seq<string>, summary: map<string, Summary>)
    requires Labelled(rows, cats)
    requires forall c :: c in summary <==> c in cats || c in GroupKeys(rows)
    requires forall c :: c in summary ==> summary[c] == SummaryFor(rows, c, Sum(rows))
    ensures summary == SummariesOf(rows, cats)
  {
    assert summary.Keys == SummariesOf(rows, cats).Keys;
  }

  /** Every category of the sorted order has an entry in the summary map. */
  lemma OrderedKeys(cats: seq<string>, summary: map<string, Summary>)
    requires forall c :: c in cats ==> c in summary
    ensures forall c :: c in SortedCategories(cats, summary) ==> c in summary
  {
    forall c | c in SortedCategories(cats, summary) ensures c in summary {
      assert c in multiset(SortedCategories(cats, summary));
    }
  }

  /** One category's overall-totals share, listing and formula. */
  method RenderSection(cat: string, d: Summary, totalTransactions: nat) returns (sec: Section)
    requires totalTransactions > 0
    ensures sec == SectionFor(cat, d, totalTransactions)
  {
    var countShare := d.count as real / totalTransactions as real * 100.0;
    var listing, prices := RenderListing(cat, d);
    sec := Section(cat, d, countShare, listing, SumFormula(prices));
  }

  /** The two loops over `sorted_categories`: one section per category, in
      that order. */
  method RenderSections(order: seq<string>, summary: map<string, Summary>, totalTransactions: nat)
    returns (sections: seq<Section>)
    requires totalTransactions > 0
    requires forall c :: c in order ==> c in summary
    ensures sections == Sections(order, summary, totalTransactions)
  {
    sections := [];
    for i := 0 to |order|
      invariant sections == Sections(order[..i], summary, totalTransactions)
    {
      var sec := RenderSection(order[i], summary[order[i]], totalTransactions);
      assert order[..i + 1] == order[..i] + [order[i]];
      SectionsAppend(order[..i], order[i], summary, totalTransactions);
      sections := sections + [sec];
    }
    assert order[..|order|] == order;
  }

  /** The report stage without its file handling: maps every row, then
      builds the report over the declared categories. */
  method BuildReport(txns: seq<Txn>) returns (r: Result<Report, ReportError>)
    ensures r.Failure? <==> txns == []
    ensures r.Success? ==> r.value == ReportOf(WithMappedCategory(txns), ReportRules.Categories)
  {
    var rows := WithMappedCategory(txns);
    assert ReportRules.Categories[1] == ReportRules.EatingOut;
    r := ReportFromRows(rows, ReportRules.Categories);
  }

  /** Fills the summaries, orders the categories, renders each section and
      collects the insights. An empty table fails at the overall-totals
      line. */
  method ReportFromRows(rows: seq<Row>, cats: seq<string>) returns (r: Result<Report, ReportError>)
    requires Labelled(rows, cats) && ReportRules.EatingOut in cats
    ensures r.Failure? <==> rows == []
    ensures r.Success? ==> r.value == ReportOf(rows, cats)
  {
    var totalSpent := Sum(rows);
    var totalTransactions := |rows|;
    var summary := Summarize(rows, cats, totalSpent);
    SummarizedRows(rows, cats, summary);
    var order := SortedCategories(cats, summary);
    OrderedKeys(cats, summary);
    var woltRows := WoltRows(rows);
    var woltTotal := Sum(woltRows);
    var woltCount := |woltRows|;
    var eatingOutTotal := summary[ReportRules.EatingOut].total;
    var woltShare := WoltShare(woltTotal, eatingOutTotal);
    if totalTransactions == 0 {
      return Failure(ZeroDivisionError);
    }
    var sections := RenderSections(order, summary, totalTransactions);
    var topExpenses := TopExpenses(rows);
    var topCategories := TopCategories(cats, summary);
    var notable, notableCount := NotableSpending(cats, summary);
    var largest := LargestSubscription(rows);
    r := Success(Report(totalSpent, totalTransactions, summary, order, sections, topExpenses, topCategories,
                        woltTotal, woltCount, woltShare, notable, largest));
  }
}

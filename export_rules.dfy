/** The export stage (generate_csv.py): its own category rules, tuned to the
    budgeting application's taxonomy, and the column step that shapes the
    CSV. Amounts are in agorot. */
module ExportRules {
  import opened Wrappers
  import opened Text

  const Reimburseable := "Reimburseable"
  const HomeAndDecor := "Home & Decor"
  const EatingOut := "Eating out"
  const Education := "Education & Learning"
  const Transport := "Transport & Car"
  const Appearance := "Appearance & Grooming"
  const Travel := "Vacation & Travel"
  const Gifts := "Gifts & Charity"
  const Subscriptions := "Subscriptions"
  const Electronics := "Electronics & Gadgets"
  const Groceries := "Groceries"
  const Government := "Government & Municipal"
  const Health := "Health & Cosmetics"
  const Entertainment := "Entertainment & Events"
  const Telecom := "Telecom"
  const MiscAndOneOffs := "Misc & One-offs"

  /** Every label the export rules can give. */
  const Labels: seq<string> := [
    Reimburseable, HomeAndDecor, EatingOut, Education, Transport, Appearance, Travel, Gifts,
    Subscriptions, Electronics, Groceries, Government, Health, Entertainment, Telecom, MiscAndOneOffs
  ]

  const HomeKeywords: seq<string> := ["online home items", "booom"]
  const EatingOutKeywords: seq<string> := ["poalim wonder", "מש - קר"]
  const EducationKeywords: seq<string> := [
    "course", "udemy", "coursera", "book", "books", "steimatzky", "סטימצקי", "ספרים",
    "מכון טכנולוגי", "h.i.t", "מכון אקדמי טכנולוגי חולון", "מעונות חולון", "חניון מעונות"
  ]
  const TransportKeywords: seq<string> := ["parking", "חניון", "pango", "פנגו", "רב-פס"]
  const AppearanceKeywords: seq<string> := ["clothing", "fashion", "salon", "barber", "haircut"]
  const TravelKeywords: seq<string> := [
    "hotel", "airbnb", "booking", "flight", "travel", "el al", "נתבג", "חו\"ל", "voye global connectivi"
  ]
  const GiftKeywords: seq<string> := ["gift", "donation", "charity", "מתנה", "תרומה"]
  const SubscriptionKeywords: seq<string> := ["bitwarden", "addy.io"]
  const ElectronicsKeywords: seq<string> := [
    "gadget", "electronic", "ksp", "ivory", "קי.אס.פי.", "קיי.אס.פי", "פי.אס.קיי", "פי.אס.קי", "k s p"
  ]

  function OrigCategory(cat: Option<string>): string
  {
    match cat
    case Some(c) => c
    case None => "Unknown"
  }

  function NameText(name: Option<string>): string
  {
    name.GetOr("")
  }

  /** A paybox transfer of a rent-sized amount: 2900-3100 or 800-900 shekels. */
  predicate PayboxHome(nameLower: string, amount: int)
  {
    Contains(nameLower, "paybox") && (290000 <= amount <= 310000 || 80000 <= amount <= 90000)
  }

  /** The education group: a keyword, or "hit" as a whole word. */
  predicate EducationName(nameLower: string)
  {
    ContainsAny(nameLower, EducationKeywords) || ContainsWord(nameLower, "hit")
  }

  /** The travel group: a keyword, or "חול" as a whole word. */
  predicate TravelName(nameLower: string)
  {
    ContainsAny(nameLower, TravelKeywords) || ContainsWord(nameLower, "חול")
  }

  predicate ReimbursePhrase(nameLower: string)
  {
    Contains(nameLower, "work expenses") || Contains(nameLower, "shared bills")
  }

  /** One of the name groups tested before the reimbursement phrases matches. */
  predicate NameGroupBeforeReimburse(nameLower: string)
  {
    ContainsAny(nameLower, HomeKeywords) || ContainsAny(nameLower, EatingOutKeywords)
    || EducationName(nameLower) || ContainsAny(nameLower, TransportKeywords)
    || ContainsAny(nameLower, AppearanceKeywords) || TravelName(nameLower)
    || ContainsAny(nameLower, GiftKeywords) || ContainsAny(nameLower, SubscriptionKeywords)
  }

  /** The label given to a transaction: always one of Labels;
      "Reimburseable" for every negative amount, whatever else holds; a
      rent-sized paybox transfer otherwise goes to "Home & Decor". */
  function MapCategory(cat: Option<string>, name: Option<string>, amount: int): (r: string)
    ensures r in Labels
    ensures amount < 0 ==> r == Reimburseable
    ensures amount >= 0 && PayboxHome(LowerStr(NameText(name)), amount) ==> r == HomeAndDecor
  {
    var origCat := OrigCategory(cat);
    var nameLower := LowerStr(NameText(name));
    if amount < 0 then Reimburseable
    else if Contains(nameLower, "paybox") && 290000 <= amount <= 310000 then HomeAndDecor
    else if Contains(nameLower, "paybox") && 80000 <= amount <= 90000 then HomeAndDecor
    else
      match MapByName(nameLower)
      case Some(byName) => byName
      case None => MapByOriginalCategory(origCat).GetOr(MiscAndOneOffs)
  }

  /** The payee-name rules, all tested before any original-category rule. */
  function MapByName(nameLower: string): (r: Option<string>)
    ensures r.Some? ==> r.value in Labels
    ensures r.None? <==> (!NameGroupBeforeReimburse(nameLower) && !ReimbursePhrase(nameLower)
                          && !ContainsAny(nameLower, ElectronicsKeywords) && !Contains(nameLower, "קרמה +")
                          && !Contains(nameLower, "עיריית") && !Contains(nameLower, "iherb"))
  {
    LabelsAfterFirst();
    match KeywordGroup(nameLower)
    case Some(group) => Some(group)
    case None => LaterNameRule(nameLower)
  }

  /** Every label but the first is some other label than "Reimburseable". */
  lemma LabelsAfterFirst()
    ensures forall l :: l in Labels[1..] ==> l in Labels && l != Reimburseable
  {
    forall l | l in Labels[1..] ensures l in Labels && l != Reimburseable {
      var i :| 0 <= i < |Labels[1..]| && Labels[1..][i] == l;
      assert Labels[i + 1] == l;
    }
  }

  /** The keyword groups tested before the reimbursement phrases. */
  function KeywordGroup(nameLower: string): (r: Option<string>)
    ensures r.Some? ==> r.value in Labels[1..]
    ensures r.None? <==> !NameGroupBeforeReimburse(nameLower)
  {
    if ContainsAny(nameLower, HomeKeywords) then Some(HomeAndDecor)
    else if ContainsAny(nameLower, EatingOutKeywords) then Some(EatingOut)
    else if EducationName(nameLower) then Some(Education)
    else if ContainsAny(nameLower, TransportKeywords) then Some(Transport)
    else if ContainsAny(nameLower, AppearanceKeywords) then Some(Appearance)
    else if TravelName(nameLower) then Some(Travel)
    else if ContainsAny(nameLower, GiftKeywords) then Some(Gifts)
    else if ContainsAny(nameLower, SubscriptionKeywords) then Some(Subscriptions)
    else None
  }

  /** The reimbursement phrases and the single-keyword rules after them. */
  function LaterNameRule(nameLower: string): (r: Option<string>)
    ensures r.Some? ==> r.value in Labels
    ensures r == Some(Reimburseable) <==> ReimbursePhrase(nameLower)
    ensures r.None? <==> (!ReimbursePhrase(nameLower)
                          && !ContainsAny(nameLower, ElectronicsKeywords) && !Contains(nameLower, "קרמה +")
                          && !Contains(nameLower, "עיריית") && !Contains(nameLower, "iherb"))
  {
    if ReimbursePhrase(nameLower) then Some(Reimburseable)
    else if ContainsAny(nameLower, ElectronicsKeywords) then Some(Electronics)
    else if Contains(nameLower, "קרמה +") then Some(Groceries)
    else if Contains(nameLower, "עיריית") then Some(Government)
    else if Contains(nameLower, "iherb") then Some(Health)
    else None
  }

  /** The exact-match table of original categories; the label is compared
      as it is, without lower-casing. */
  function MapByOriginalCategory(origCat: string): (r: Option<string>)
    ensures r.Some? ==> r.value in Labels && r.value != Reimburseable
  {
    if origCat == "אנרגיה" then Some(Transport)
    else if origCat == "אירועים" then Some(Entertainment)
    else if origCat == "מסעדות" then Some(EatingOut)
    else if origCat in ["מזון ומשקאות", "מזון מהיר"] then Some(Groceries)
    else if origCat == "ריהוט ובית" then Some(HomeAndDecor)
    else if origCat == "רפואה ובריאות" then Some(Health)
    else if origCat == "רכב ותחבורה" then Some(Transport)
    else if origCat == "תקשורת ומחשבים" then Some(Telecom)
    else if origCat in ["אופנה", "טיפוח ויופי"] then Some(Appearance)
    else if origCat == "מוסדות" then Some(Government)
    else if origCat == "Subscriptions" then Some(Subscriptions)
    else None
  }

  /** The original category is consulted only when no name rule fires. */
  lemma NameRulesBeforeOriginalCategory(c1: Option<string>, c2: Option<string>, name: Option<string>, amount: int)
    requires MapByName(LowerStr(NameText(name))).Some?
    ensures MapCategory(c1, name, amount) == MapCategory(c2, name, amount)
  {
  }

  /** "מוסדות" is a government or municipal body, once no name rule fires;
      a label in other letter case is not in the table. */
  lemma InstitutionsAreGovernment(name: Option<string>, amount: int)
    requires amount >= 0 && !PayboxHome(LowerStr(NameText(name)), amount)
    requires MapByName(LowerStr(NameText(name))).None?
    ensures MapCategory(Some("מוסדות"), name, amount) == Government
    ensures MapCategory(Some("subscriptions"), name, amount) == MiscAndOneOffs
    ensures MapCategory(Some("Subscriptions"), name, amount) == Subscriptions
  {
    FallsToOriginal(Some("מוסדות"), name, amount);
    FallsToOriginal(Some("subscriptions"), name, amount);
    FallsToOriginal(Some("Subscriptions"), name, amount);
    InstitutionsInTable();
  }

  lemma InstitutionsInTable()
    ensures MapByOriginalCategory("מוסדות") == Some(Government)
    ensures MapByOriginalCategory("subscriptions") == None
    ensures MapByOriginalCategory("Subscriptions") == Some(Subscriptions)
  {
  }

  /** Without a negative amount, a rent-sized paybox transfer or a name
      rule, the original category alone decides. */
  lemma FallsToOriginal(cat: Option<string>, name: Option<string>, amount: int)
    requires amount >= 0 && !PayboxHome(LowerStr(NameText(name)), amount)
    requires MapByName(LowerStr(NameText(name))).None?
    ensures MapCategory(cat, name, amount) == MapByOriginalCategory(OrigCategory(cat)).GetOr(MiscAndOneOffs)
  {
  }

  /** "Reimburseable" is given exactly to negative amounts and to names with a
      reimbursement phrase that no earlier name group (nor the rent test) claimed. */
  lemma ReimburseableExactly(cat: Option<string>, name: Option<string>, amount: int)
    ensures var nameLower := LowerStr(NameText(name));
            MapCategory(cat, name, amount) == Reimburseable
            <==> amount < 0
                 || (!PayboxHome(nameLower, amount) && !NameGroupBeforeReimburse(nameLower)
                     && ReimbursePhrase(nameLower))
  {
    var nameLower := LowerStr(NameText(name));
    if amount >= 0 && !PayboxHome(nameLower, amount) {
      LabelsAfterFirst();
      var group := KeywordGroup(nameLower);
      if group.None? {
        var later := LaterNameRule(nameLower);
        if later.None? {
          var table := MapByOriginalCategory(OrigCategory(cat));
          assert MapCategory(cat, name, amount) == table.GetOr(MiscAndOneOffs);
        }
      }
    }
  }

  /** "חניון מעונות" (the dormitory car park) matches the transport group
      through "חניון", but the education group is tested first. */
  lemma DormitoryParkingIsEducation(cat: Option<string>, name: Option<string>, amount: int)
    requires Contains(LowerStr(NameText(name)), "חניון מעונות")
    ensures ContainsAny(LowerStr(NameText(name)), TransportKeywords)
    ensures MapCategory(cat, name, amount) != Transport
  {
    var nameLower := LowerStr(NameText(name));
    ContainsPrefix(nameLower, "חניון מעונות", "חניון");
    assert TransportKeywords[1] == "חניון";
    assert EducationKeywords[12] == "חניון מעונות";
    assert EducationName(nameLower);
    if amount >= 0 && !PayboxHome(nameLower, amount) {
      var group := KeywordGroup(nameLower);
      assert group.Some? && MapCategory(cat, name, amount) == group.value;
      assert group.value in [HomeAndDecor, EatingOut, Education];
    }
  }

  /** "booking" contains the education keyword "book", which is tested
      before the travel group: such a name is never "Vacation & Travel". */
  lemma BookingIsEducation(cat: Option<string>, name: Option<string>, amount: int)
    requires Contains(LowerStr(NameText(name)), "booking")
    ensures ContainsAny(LowerStr(NameText(name)), TravelKeywords)
    ensures MapCategory(cat, name, amount) != Travel
  {
    var nameLower := LowerStr(NameText(name));
    ContainsPrefix(nameLower, "booking", "book");
    assert EducationKeywords[3] == "book";
    assert TravelKeywords[2] == "booking";
    assert EducationName(nameLower);
    if amount >= 0 && !PayboxHome(nameLower, amount) {
      var group := KeywordGroup(nameLower);
      assert group.Some? && MapCategory(cat, name, amount) == group.value;
      assert group.value in [HomeAndDecor, EatingOut, Education];
    }
  }

  /** "hit" counts only as a whole word: "white" holds it, but not between
      non-word neighbours. */
  lemma HitOnlyAsWord()
    ensures Contains("white", "hit")
    ensures !ContainsWord("white", "hit")
    ensures ContainsWord("hit college", "hit")
  {
    assert OccursAt("white", "hit", 1);
    assert WordAt("hit college", "hit", 0);
  }

  /** "חול" (abroad) counts only as a whole word: not inside the city name
      "חולון", nor with a prefix letter attached. */
  lemma AbroadOnlyAsWord()
    ensures ContainsWord("טיסות חול", "חול")
    ensures Contains("מרכז חולון", "חול") && !ContainsWord("מרכז חולון", "חול")
  {
    assert WordAt("טיסות חול", "חול", 6);
    assert OccursAt("מרכז חולון", "חול", 5);
  }

  // The column step: rename the source headers, keep the target columns
  // that are present, in target order.

  const RenameMap: map<string, string> := map[
    "תאריך\nעסקה" := "Date",
    "שם בית עסק" := "Payee",
    "סכום\nחיוב" := "Amount",
    "ענף" := "Category"
  ]

  const KeepColumns: seq<string> := ["Date", "Payee", "Amount", "Category"]

  /** The position of a target column in KeepColumns (4 for any other name). */
  function ColumnRank(c: string): nat
  {
    if c == "Date" then 0 else if c == "Payee" then 1 else if c == "Amount" then 2
    else if c == "Category" then 3 else 4
  }

  /** `df.rename(columns=rename_map)`: each header of the sheet that the map
      names becomes a target column, every other header is kept as it is. */
  function RenameColumns(cols: seq<string>): (r: seq<string>)
    ensures |r| == |cols|
    ensures forall i :: 0 <= i < |cols| && cols[i] in RenameMap ==> r[i] == RenameMap[cols[i]] && r[i] in KeepColumns
    ensures forall i :: 0 <= i < |cols| && cols[i] !in RenameMap ==> r[i] == cols[i]
  {
    seq(|cols|, i requires 0 <= i < |cols| => if cols[i] in RenameMap then RenameMap[cols[i]] else cols[i])
  }

  /** The four headers of the statement, in their order there, become the
      four target columns. */
  lemma RenameStatementHeaders()
    ensures RenameColumns(["תאריך\nעסקה", "שם בית עסק", "סכום\nחיוב", "ענף"]) == KeepColumns
  {
    var r := RenameColumns(["תאריך\nעסקה", "שם בית עסק", "סכום\nחיוב", "ענף"]);
    assert r[0] == "Date" && r[1] == "Payee" && r[2] == "Amount" && r[3] == "Category";
  }

  /** `[c for c in keep if c in present]`. */
  function SelectPresent(keep: seq<string>, present: seq<string>): (r: seq<string>)
    ensures forall c :: c in r <==> c in keep && c in present
    decreases |keep|
  {
    if keep == [] then []
    else (if keep[0] in present then [keep[0]] else []) + SelectPresent(keep[1..], present)
  }

  /** The CSV's columns: exactly the target columns present after renaming,
      each once, in the order Date, Payee, Amount, Category. */
  function ExportColumns(cols: seq<string>): (r: seq<string>)
    ensures forall c :: c in r <==> c in KeepColumns && c in RenameColumns(cols)
    ensures forall i, j :: 0 <= i < j < |r| ==> ColumnRank(r[i]) < ColumnRank(r[j])
  {
    KeepColumnsRanked();
    SelectPresentRanked(KeepColumns, RenameColumns(cols), ColumnRank);
    SelectPresent(KeepColumns, RenameColumns(cols))
  }

  ghost predicate Ranked(cs: seq<string>, rank: string -> nat)
  {
    forall i, j :: 0 <= i < j < |cs| ==> rank(cs[i]) < rank(cs[j])
  }

  lemma KeepColumnsRanked()
    ensures Ranked(KeepColumns, ColumnRank)
  {
    forall i | 0 <= i < |KeepColumns| ensures ColumnRank(KeepColumns[i]) == i {
    }
  }

  ghost predicate AllAbove(cs: seq<string>, rank: string -> nat, b: int)
  {
    forall i :: 0 <= i < |cs| ==> rank(cs[i]) > b
  }

  /** Selecting from a ranked list keeps it ranked. */
  lemma {:induction false} SelectPresentRanked(keep: seq<string>, present: seq<string>, rank: string -> nat)
    requires Ranked(keep, rank)
    ensures Ranked(SelectPresent(keep, present), rank)
    decreases |keep|
  {
    if keep != [] {
      RankedTail(keep, rank);
      SelectPresentRanked(keep[1..], present, rank);
      SelectPresentAbove(keep[1..], present, rank, rank(keep[0]));
      if keep[0] in present {
        ConsRanked(keep[0], SelectPresent(keep[1..], present), rank);
      }
    }
  }

  lemma RankedTail(keep: seq<string>, rank: string -> nat)
    requires Ranked(keep, rank) && keep != []
    ensures Ranked(keep[1..], rank) && AllAbove(keep[1..], rank, rank(keep[0]))
  {
    var rest := keep[1..];
    forall i | 0 <= i < |rest| ensures rank(rest[i]) > rank(keep[0]) {
      assert rest[i] == keep[i + 1];
    }
    forall i, j | 0 <= i < j < |rest| ensures rank(rest[i]) < rank(rest[j]) {
      assert rest[i] == keep[i + 1] && rest[j] == keep[j + 1];
    }
  }

  lemma {:induction false} SelectPresentAbove(keep: seq<string>, present: seq<string>, rank: string -> nat, b: int)
    requires AllAbove(keep, rank, b)
    ensures AllAbove(SelectPresent(keep, present), rank, b)
    decreases |keep|
  {
    if keep != [] {
      var rest := keep[1..];
      assert AllAbove(rest, rank, b) by {
        forall i | 0 <= i < |rest| ensures rank(rest[i]) > b {
          assert rest[i] == keep[i + 1];
        }
      }
      SelectPresentAbove(rest, present, rank, b);
      var t := SelectPresent(rest, present);
      var head := if keep[0] in present then [keep[0]] else [];
      var r := head + t;
      forall i | 0 <= i < |r| ensures rank(r[i]) > b {
        if i < |head| {
          assert r[i] == keep[0];
        } else {
          assert r[i] == t[i - |head|];
        }
      }
    }
  }

  lemma ConsRanked(x: string, t: seq<string>, rank: string -> nat)
    requires Ranked(t, rank) && AllAbove(t, rank, rank(x))
    ensures Ranked([x] + t, rank)
  {
    var r := [x] + t;
    forall i, j | 0 <= i < j < |r| ensures rank(r[i]) < rank(r[j]) {
      assert r[j] == t[j - 1];
      if i > 0 {
        assert r[i] == t[i - 1];
      }
    }
  }

  /** The source row with the fields the export reads; the date is carried
      as an opaque value. */
  datatype SourceRow = SourceRow(date: string, name: Option<string>, amount: int, category: Option<string>)

  /** A CSV row: the category column holds the mapped label. */
  datatype CsvRow = CsvRow(date: string, payee: Option<string>, amount: int, category: string)

  /** The category column is overwritten with the mapped label; every other
      field, and the row order, is kept. */
  function ExportRows(rows: seq<SourceRow>): (r: seq<CsvRow>)
    ensures |r| == |rows|
    ensures forall i :: 0 <= i < |r| ==>
              r[i].date == rows[i].date && r[i].payee == rows[i].name && r[i].amount == rows[i].amount
              && r[i].category in Labels
              && (rows[i].amount < 0 ==> r[i].category == Reimburseable)
    ensures forall i :: 0 <= i < |r| ==> r[i].category == MapCategory(rows[i].category, rows[i].name, rows[i].amount)
  {
    seq(|rows|, i requires 0 <= i < |rows| =>
      CsvRow(rows[i].date, rows[i].name, rows[i].amount,
             MapCategory(rows[i].category, rows[i].name, rows[i].amount)))
  }
}

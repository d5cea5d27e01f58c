/** The report stage's category rules (`map_category` of generate_report.py):
    an ordered list of tests on the original category label, the lower-cased
    payee name and the amount, of which the first that holds decides the
    label. Amounts are in agorot. */
module ReportRules {
  import opened Wrappers
  import opened Text

  const EntertainmentAndFun := "Entertainment and Fun"
  const EatingOut := "Eating Out"
  const Groceries := "Groceries"
  const HomeAndDecor := "Home and Decor"
  const HealthAndCosmetics := "Health and Cosmetics"
  const TransportAndCar := "Transport and Car"
  const Telecom := "Telecom"
  const AppearanceAndGrooming := "Appearance and Grooming"
  const Institutions := "Institutions"
  const Subscriptions := "Subscriptions"
  const VacationAndTravel := "Vacation and Travel"
  const EducationAndLearning := "Education and Learning"
  const GiftsAndCharity := "Gifts and Charity"
  const ElectronicsAndGadgets := "Electronics and Gadgets"
  const ReimbursableExpenses := "Reimbursable Expenses"
  const RentAndUtilities := "Rent and Utilities"
  const MiscAndOneOffs := "Misc and One-offs"

  /** The declared report categories, in declared order. */
  const Categories: seq<string> := [
    EntertainmentAndFun, EatingOut, Groceries, HomeAndDecor, HealthAndCosmetics, TransportAndCar,
    Telecom, AppearanceAndGrooming, Institutions, Subscriptions, VacationAndTravel,
    EducationAndLearning, GiftsAndCharity, ElectronicsAndGadgets, ReimbursableExpenses,
    RentAndUtilities, MiscAndOneOffs
  ]

  /** The declared categories other than rent, in declared order. */
  const OtherThanRent: seq<string> := [
    EntertainmentAndFun, EatingOut, Groceries, HomeAndDecor, HealthAndCosmetics, TransportAndCar,
    Telecom, AppearanceAndGrooming, Institutions, Subscriptions, VacationAndTravel,
    EducationAndLearning, GiftsAndCharity, ElectronicsAndGadgets, ReimbursableExpenses,
    MiscAndOneOffs
  ]

  /** Every category in OtherThanRent is declared, and none is rent. */
  lemma OtherThanRentDeclared()
    ensures forall l :: l in OtherThanRent ==> l in Categories && l != RentAndUtilities
  {
  }

  const ParkingKeywords: seq<string> := ["parking", "חניון", "pango", "פנגו"]
  const AppearanceKeywords: seq<string> := ["clothing", "fashion", "salon", "barber", "haircut"]
  const TravelKeywords: seq<string> := ["hotel", "airbnb", "booking", "flight", "travel", "el al", "נתבג", "חול"]
  const EducationKeywords: seq<string> := ["course", "udemy", "coursera", "book", "steimatzky", "סטימצקי"]
  const GiftKeywords: seq<string> := ["gift", "donation", "charity", "מתנה", "תרומה"]
  const ElectronicsKeywords: seq<string> := ["gadget", "electronic", "ksp", "ivory"]

  /** A missing original category reads as "Unknown". */
  function OrigCategory(cat: Option<string>): string
  {
    match cat
    case Some(c) => c
    case None => "Unknown"
  }

  /** A missing payee name reads as the empty name. */
  function NameText(name: Option<string>): string
  {
    name.GetOr("")
  }

  /** A paybox transfer of a rent-sized amount: 2900-3100 or 800-900 shekels. */
  predicate PayboxRent(nameLower: string, amount: int)
  {
    Contains(nameLower, "paybox") && (290000 <= amount <= 310000 || 80000 <= amount <= 90000)
  }

  /** The label given to a transaction: always one of the declared
      categories, and "Rent and Utilities" exactly for rent-sized paybox
      transfers. */
  function MapCategory(cat: Option<string>, name: Option<string>, amount: int): (r: string)
    ensures r in Categories
    ensures r == RentAndUtilities <==> PayboxRent(LowerStr(NameText(name)), amount)
  {
    var origCat := OrigCategory(cat);
    var nameLower := LowerStr(NameText(name));
    OtherThanRentDeclared();
    if Contains(nameLower, "paybox") && 290000 <= amount <= 310000 then RentAndUtilities
    else if Contains(nameLower, "paybox") && 80000 <= amount <= 90000 then RentAndUtilities
    else MapByCategoryAndName(origCat, nameLower)
  }

  /** The rules after the paybox test; none of them looks at the amount,
      and none gives rent. */
  function MapByCategoryAndName(origCat: string, nameLower: string): (r: string)
    ensures r in OtherThanRent
  {
    match LeadingRule(origCat, nameLower)
    case Some(l) => l
    case None => KeywordRule(nameLower).GetOr(MiscAndOneOffs)
  }

  /** The rules up to the "Subscriptions" category: mostly exact original
      categories, with a few name tests between them. */
  function LeadingRule(origCat: string, nameLower: string): (r: Option<string>)
    ensures r.Some? ==> r.value in OtherThanRent
    ensures OriginalLabel(origCat).Some? ==> r.Some?
  {
    if origCat == "אנרגיה" then Some(TransportAndCar)
    else if origCat == "אירועים" then Some(EntertainmentAndFun)
    else if origCat == "מסעדות" then Some(EatingOut)
    else if origCat in ["מזון ומשקאות", "מזון מהיר"] then Some(Groceries)
    else if origCat == "ריהוט ובית" then Some(HomeAndDecor)
    else if Contains(nameLower, "online home items") then Some(HomeAndDecor)
    else if origCat == "רפואה ובריאות" then Some(HealthAndCosmetics)
    else if origCat == "רכב ותחבורה" then Some(TransportAndCar)
    else if origCat == "מוסדות" && ContainsAny(nameLower, ParkingKeywords) then Some(TransportAndCar)
    else if origCat == "Unknown" && (Contains(nameLower, "חניון") || Contains(nameLower, "parking")) then Some(TransportAndCar)
    else if origCat == "תקשורת ומחשבים" then Some(Telecom)
    else if origCat in ["אופנה", "טיפוח ויופי"] then Some(AppearanceAndGrooming)
    else if ContainsAny(nameLower, AppearanceKeywords) then Some(AppearanceAndGrooming)
    else if origCat == "מוסדות" then Some(Institutions)
    else if origCat == "Subscriptions" then Some(Subscriptions)
    else None
  }

  /** The keyword groups and phrases tested last, on the name alone. */
  function KeywordRule(nameLower: string): (r: Option<string>)
    ensures r.Some? ==> r.value in OtherThanRent
    ensures r.None? <==> (!ContainsAny(nameLower, TravelKeywords) && !ContainsAny(nameLower, EducationKeywords)
                          && !ContainsAny(nameLower, GiftKeywords) && !ContainsAny(nameLower, ElectronicsKeywords)
                          && !Contains(nameLower, "work expenses") && !Contains(nameLower, "shared bills"))
  {
    if ContainsAny(nameLower, TravelKeywords) then Some(VacationAndTravel)
    else if ContainsAny(nameLower, EducationKeywords) then Some(EducationAndLearning)
    else if ContainsAny(nameLower, GiftKeywords) then Some(GiftsAndCharity)
    else if ContainsAny(nameLower, ElectronicsKeywords) then Some(ElectronicsAndGadgets)
    else if Contains(nameLower, "work expenses") || Contains(nameLower, "shared bills") then Some(ReimbursableExpenses)
    else None
  }

  /** The label each original category stands for in the rules above. */
  function OriginalLabel(origCat: string): Option<string>
  {
    if origCat == "אנרגיה" then Some(TransportAndCar)
    else if origCat == "אירועים" then Some(EntertainmentAndFun)
    else if origCat == "מסעדות" then Some(EatingOut)
    else if origCat in ["מזון ומשקאות", "מזון מהיר"] then Some(Groceries)
    else if origCat == "ריהוט ובית" then Some(HomeAndDecor)
    else if origCat == "רפואה ובריאות" then Some(HealthAndCosmetics)
    else if origCat == "רכב ותחבורה" then Some(TransportAndCar)
    else if origCat == "תקשורת ומחשבים" then Some(Telecom)
    else if origCat in ["אופנה", "טיפוח ויופי"] then Some(AppearanceAndGrooming)
    else if origCat == "מוסדות" then Some(Institutions)
    else if origCat == "Subscriptions" then Some(Subscriptions)
    else None
  }

  /** Apart from the rent test, the amount plays no part: in particular a
      negative amount is treated like any other amount outside the rent ranges. */
  lemma AmountOnlyDecidesRent(cat: Option<string>, name: Option<string>, a: int, b: int)
    requires !PayboxRent(LowerStr(NameText(name)), a) && !PayboxRent(LowerStr(NameText(name)), b)
    ensures MapCategory(cat, name, a) == MapCategory(cat, name, b)
  {
  }

  /** An original category with a label of its own keeps that label, unless
      one of the few name tests placed before it fires; the keyword groups
      from the travel group on are never reached. */
  lemma OriginalCategoryWins(orig: string, name: Option<string>, amount: int)
    requires OriginalLabel(orig).Some?
    ensures var r := MapCategory(Some(orig), name, amount);
            var nameLower := LowerStr(NameText(name));
            r == OriginalLabel(orig).value
            || (PayboxRent(nameLower, amount) && r == RentAndUtilities)
            || (Contains(nameLower, "online home items") && r == HomeAndDecor)
            || (orig == "מוסדות" && ContainsAny(nameLower, ParkingKeywords) && r == TransportAndCar)
            || (ContainsAny(nameLower, AppearanceKeywords) && r == AppearanceAndGrooming)
  {
    var nameLower := LowerStr(NameText(name));
    if !PayboxRent(nameLower, amount) {
      OriginalCategoryWinsAfterRent(orig, nameLower);
    }
  }

  lemma OriginalCategoryWinsAfterRent(orig: string, nameLower: string)
    requires OriginalLabel(orig).Some?
    ensures var r := MapByCategoryAndName(orig, nameLower);
            r == OriginalLabel(orig).value
            || (Contains(nameLower, "online home items") && r == HomeAndDecor)
            || (orig == "מוסדות" && ContainsAny(nameLower, ParkingKeywords) && r == TransportAndCar)
            || (ContainsAny(nameLower, AppearanceKeywords) && r == AppearanceAndGrooming)
  {
    if orig in ["אנרגיה", "אירועים", "מסעדות", "מזון ומשקאות", "מזון מהיר", "ריהוט ובית"] {
    } else if Contains(nameLower, "online home items") {
    } else if orig in ["רפואה ובריאות", "רכב ותחבורה"] {
    } else if orig == "מוסדות" {
    } else if orig in ["תקשורת ומחשבים", "אופנה", "טיפוח ויופי"] {
    } else {
      assert orig == "Subscriptions";
    }
  }

  /** A name containing "booking" matches both the travel group and, through
      "book", the education group; the travel group is tested first, so the
      label is never EducationAndLearning. */
  lemma BookingIsTravel(cat: Option<string>, name: Option<string>, amount: int)
    requires Contains(LowerStr(NameText(name)), "booking")
    ensures ContainsAny(LowerStr(NameText(name)), TravelKeywords)
    ensures ContainsAny(LowerStr(NameText(name)), EducationKeywords)
    ensures MapCategory(cat, name, amount) != EducationAndLearning
    ensures var nameLower := LowerStr(NameText(name));
            !PayboxRent(nameLower, amount) && LeadingRule(OrigCategory(cat), nameLower).None? ==>
              MapCategory(cat, name, amount) == VacationAndTravel
  {
    var nameLower := LowerStr(NameText(name));
    assert TravelKeywords[2] == "booking";
    ContainsPrefix(nameLower, "booking", "book");
    assert EducationKeywords[3] == "book";
    if !PayboxRent(nameLower, amount) {
      TravelNeverEducation(OrigCategory(cat), nameLower);
    }
  }

  /** Once the travel group matches, the education group is never reached;
      when no leading rule fires, the label is travel. */
  lemma TravelNeverEducation(origCat: string, nameLower: string)
    requires ContainsAny(nameLower, TravelKeywords)
    ensures MapByCategoryAndName(origCat, nameLower) != EducationAndLearning
    ensures LeadingRule(origCat, nameLower).None? ==> MapByCategoryAndName(origCat, nameLower) == VacationAndTravel
  {
    LeadingLabels(origCat, nameLower);
    assert KeywordRule(nameLower) == Some(VacationAndTravel);
  }

  /** The labels the leading rules give: none of the keyword-group labels. */
  lemma LeadingLabels(origCat: string, nameLower: string)
    ensures var r := LeadingRule(origCat, nameLower);
            r.Some? ==> r.value in [TransportAndCar, EntertainmentAndFun, EatingOut, Groceries, HomeAndDecor,
                                    HealthAndCosmetics, Telecom, AppearanceAndGrooming, Institutions, Subscriptions]
  {
  }

  /** Missing values: a missing category behaves as "Unknown" and a missing
      name as the empty name. */
  lemma MissingValues(cat: Option<string>, name: Option<string>, amount: int)
    ensures MapCategory(None, name, amount) == MapCategory(Some("Unknown"), name, amount)
    ensures MapCategory(cat, None, amount) == MapCategory(cat, Some(""), amount)
  {
  }

  /** An "Unknown" row with a parking name is transport, unless the rent or
      "online home items" tests placed earlier fire. */
  lemma UnknownParking(name: Option<string>, amount: int)
    requires var nameLower := LowerStr(NameText(name));
             (Contains(nameLower, "חניון") || Contains(nameLower, "parking"))
             && !PayboxRent(nameLower, amount) && !Contains(nameLower, "online home items")
    ensures MapCategory(None, name, amount) == TransportAndCar
  {
  }

  /** An "Unknown" row without a name falls through to the default label. */
  lemma UnknownWithoutName(amount: int)
    ensures MapCategory(None, None, amount) == MiscAndOneOffs
  {
    assert LowerStr("") == "";
    EmptyNameLeading();
    EmptyNameKeywords();
  }

  lemma EmptyNameLeading()
    ensures LeadingRule("Unknown", "") == None
  {
    forall k | k in ParkingKeywords + AppearanceKeywords ensures !Contains("", k) {
    }
  }

  lemma EmptyNameKeywords()
    ensures KeywordRule("") == None
  {
    forall k | k in TravelKeywords + EducationKeywords + GiftKeywords + ElectronicsKeywords
      ensures !Contains("", k)
    {
    }
  }
}

/**
 * The plan list screen (src/pages/User/Plans.jsx): plans are filtered by company and by a
 * case-insensitive search over name, company name and speed, then sorted by price
 * (ascending), speed or duration (both descending) with the stable `Array.prototype.sort`.
 */
module Plans {
  import opened Wrappers
  import Text
  import Seqs

  /** A plan of the list, with the fields the filter and the sort read. */
  datatype Plan = Plan(id: int, companyName: string, name: string, speed: string, duration: string, price: int)

  /** The screen's catalogue, in its declared order. */
  const Catalogue: seq<Plan> := [
    Plan(1, "Jio Fiber", "Super 499 Plan", "100 Mbps", "84 days", 1499),
    Plan(2, "Airtel Xstream", "Xstream Value", "200 Mbps", "90 days", 2099),
    Plan(3, "BSNL", "BSNL Unlimited", "60 Mbps", "30 days", 599),
    Plan(4, "ACT Fibernet", "ACT Blast Promo", "150 Mbps", "60 days", 1299)
  ]

  /** `getSpeedValue(speed)`, which is `parseInt(speed)`; `None` stands for `NaN`. */
  function SpeedValue(speed: string): Option<int> {
    Text.ParseInt(speed)
  }

  /** The speed a plan sorts by (its parsed speed; 0 only stands in for `NaN`, which the sort excludes). */
  function SpeedOf(p: Plan): int {
    match SpeedValue(p.speed)
    case Some(v) => v
    case None => 0
  }

  /** The duration a plan sorts by, `parseInt(p.duration)` (0 only stands in for `NaN`). */
  function DurationOf(p: Plan): int {
    match Text.ParseInt(p.duration)
    case Some(v) => v
    case None => 0
  }

  /** The predicate passed to `plans.filter`. */
  predicate Matches(p: Plan, company: string, search: string) {
    var q := Text.ToLower(search);
    && (company == "All" || p.companyName == company)
    && (|| Text.Includes(Text.ToLower(p.name), q)
        || Text.Includes(Text.ToLower(p.companyName), q)
        || Text.Includes(Text.ToLower(p.speed), q))
  }

  /** The filter step: the plans of the selected company that the search finds, in catalogue order. */
  function FilterPlans(plans: seq<Plan>, company: string, search: string): (r: seq<Plan>)
    ensures |r| <= |plans|
    ensures forall i :: 0 <= i < |r| ==> Matches(r[i], company, search)
    ensures company != "All" ==> forall i :: 0 <= i < |r| ==> r[i].companyName == company
  {
    Seqs.Filter(plans, p => Matches(p, company, search))
  }

  /**
   * The filter is complete and keeps order: every plan that matches is returned, and the
   * result is a subsequence of the input.
   */
  lemma FilterPlansComplete(plans: seq<Plan>, company: string, search: string)
    ensures forall i :: 0 <= i < |plans| && Matches(plans[i], company, search)
                        ==> plans[i] in FilterPlans(plans, company, search)
    ensures forall p :: Matches(p, company, search) ==>
                        multiset(FilterPlans(plans, company, search))[p] == multiset(plans)[p]
    ensures Seqs.Subsequence(FilterPlans(plans, company, search), plans)
  {
    Seqs.FilterMembers(plans, p => Matches(p, company, search));
    Seqs.FilterIsSubsequence(plans, p => Matches(p, company, search));
    forall p | Matches(p, company, search)
      ensures multiset(FilterPlans(plans, company, search))[p] == multiset(plans)[p]
    {
      Seqs.FilterCount(plans, p => Matches(p, company, search), p);
    }
  }

  /** With company "All" and an empty search nothing is filtered out. */
  lemma FilterAllEmptySearch(plans: seq<Plan>)
    ensures FilterPlans(plans, "All", "") == plans
  {
    assert Text.ToLower("") == "";
    forall i | 0 <= i < |plans| ensures Matches(plans[i], "All", "") {
      Text.IncludesEmpty(Text.ToLower(plans[i].name));
    }
    Seqs.FilterAll(plans, p => Matches(p, "All", ""));
  }

  /**
   * The company comparison is exact: a selection that equals no company name, one that
   * differs only in case say, keeps nothing, whatever the search.
   */
  lemma CompanyMatchIsCaseSensitive(plans: seq<Plan>, company: string, search: string)
    requires company != "All"
    requires forall i :: 0 <= i < |plans| ==> plans[i].companyName != company
    ensures FilterPlans(plans, company, search) == []
  {
    Seqs.FilterNone(plans, p => Matches(p, company, search));
  }

  /** The rank the chosen sort orders by ascending: price, or the negated speed or duration. */
  function SortRank(sort: string): Plan -> int {
    if sort == "price" then (p: Plan) => p.price
    else if sort == "speed" then (p: Plan) => -SpeedOf(p)
    else if sort == "duration" then (p: Plan) => -DurationOf(p)
    else (p: Plan) => 0
  }

  /** The comparator of the chosen sort never sees `NaN`: every key it reads parses. */
  predicate Sortable(plans: seq<Plan>, sort: string) {
    && (sort == "speed" ==> forall i :: 0 <= i < |plans| ==> SpeedValue(plans[i].speed).Some?)
    && (sort == "duration" ==> forall i :: 0 <= i < |plans| ==> Text.ParseInt(plans[i].duration).Some?)
  }

  /**
   * The list the screen renders: `filtered` is the filter's result, then reassigned to its
   * sort when `sort` is one of the three keys. The result is a permutation of the filtered
   * plans, ordered by the key, with ties left in input order.
   */
  method VisiblePlans(plans: seq<Plan>, company: string, search: string, sort: string)
    returns (filtered: seq<Plan>)
    requires Sortable(FilterPlans(plans, company, search), sort)
    ensures multiset(filtered) == multiset(FilterPlans(plans, company, search))
    ensures sort == "price" ==> forall i, j :: 0 <= i < j < |filtered| ==> filtered[i].price <= filtered[j].price
    ensures sort == "speed" ==> forall i, j :: 0 <= i < j < |filtered| ==> SpeedOf(filtered[i]) >= SpeedOf(filtered[j])
    ensures sort == "duration" ==> forall i, j :: 0 <= i < j < |filtered| ==> DurationOf(filtered[i]) >= DurationOf(filtered[j])
    ensures forall k :: Seqs.Filter(filtered, Seqs.RankIs(SortRank(sort), k))
                     == Seqs.Filter(FilterPlans(plans, company, search), Seqs.RankIs(SortRank(sort), k))
    ensures sort != "price" && sort != "speed" && sort != "duration" ==> filtered == FilterPlans(plans, company, search)
  {
    filtered := FilterPlans(plans, company, search);
    ghost var kept := filtered;
    if sort == "price" {
      filtered := Seqs.SortBy(filtered, SortRank(sort));
    }
    if sort == "speed" {
      filtered := Seqs.SortBy(filtered, SortRank(sort));
    }
    if sort == "duration" {
      filtered := Seqs.SortBy(filtered, SortRank(sort));
    }
    if sort == "price" || sort == "speed" || sort == "duration" {
      assert filtered == Seqs.SortBy(kept, SortRank(sort));
      forall k ensures Seqs.Filter(filtered, Seqs.RankIs(SortRank(sort), k)) == Seqs.Filter(kept, Seqs.RankIs(SortRank(sort), k)) {
        Seqs.SortByStable(kept, SortRank(sort), k);
      }
    }
  }

  /**
   * A string that starts with a number of two or three digits followed by a space, as every
   * speed and duration of the catalogue does, is a number for `parseInt`.
   */
  lemma LeadingNumber(s: string)
    requires |s| >= 4 && Text.IsDigit(s[0]) && Text.IsDigit(s[1])
    requires s[2] == ' ' || (Text.IsDigit(s[2]) && s[3] == ' ')
    ensures Text.ParseInt(s).Some?
  {
    var k := if s[2] == ' ' then 2 else 3;
    assert s == s[..k] + s[k..];
    Text.ParseIntLeadingDigits(s[..k], s[k..]);
  }

  /** Every speed and duration of the catalogue parses, so each sort of it is well defined. */
  lemma CatalogueSortable()
    ensures Sortable(Catalogue, "speed") && Sortable(Catalogue, "duration")
  {
    forall i | 0 <= i < |Catalogue|
      ensures SpeedValue(Catalogue[i].speed).Some? && Text.ParseInt(Catalogue[i].duration).Some?
    {
      LeadingNumber(Catalogue[i].speed);
      LeadingNumber(Catalogue[i].duration);
    }
  }

  /** The screen's own list can always be sorted: whatever the filter keeps of the catalogue parses. */
  lemma CatalogueFilterSortable(company: string, search: string, sort: string)
    ensures Sortable(FilterPlans(Catalogue, company, search), sort)
  {
    CatalogueSortable();
    var kept := FilterPlans(Catalogue, company, search);
    Seqs.FilterMembers(Catalogue, p => Matches(p, company, search));
    forall i | 0 <= i < |kept|
      ensures SpeedValue(kept[i].speed).Some? && Text.ParseInt(kept[i].duration).Some?
    {
      assert kept[i] in Catalogue;
      var j :| 0 <= j < |Catalogue| && Catalogue[j] == kept[i];
    }
  }
}

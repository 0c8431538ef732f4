/**
 * The plan table (src/pages/User/Table.jsx): a Company/Speed tab pair, a dropdown of the
 * tab's filter values, and the list of plans the selected value keeps.
 */
module Table {
  import Text
  import Seqs

  datatype Tab = CompanyTab | SpeedTab

  /** A row of the table; `speed` is the bare number of megabits, as text. */
  datatype TablePlan = TablePlan(id: int, company: string, speed: string, price: int, validity: string)

  const CompanyFilters: seq<string> := ["All", "Airtel", "Jio", "BSNL"]
  const SpeedFilters: seq<string> := ["All", "50 Mbps", "100 Mbps", "200 Mbps", "300 Mbps"]

  /** The table's plans, in their declared order. */
  const Plans: seq<TablePlan> := [
    TablePlan(1, "Airtel", "50", 499, "28 days"),
    TablePlan(4, "Airtel", "300", 1499, "28 days"),
    TablePlan(5, "Jio", "50", 399, "30 days"),
    TablePlan(6, "Jio", "100", 699, "30 days"),
    TablePlan(9, "BSNL", "50", 449, "30 days"),
    TablePlan(10, "BSNL", "100", 749, "30 days")
  ]

  /** The company test: names equal once both are lower-cased. */
  predicate SameCompany(p: TablePlan, selected: string) {
    Text.ToLower(p.company) == Text.ToLower(selected)
  }

  /** The speed a selected value names, as the source computes it: the first " Mbps" removed. */
  function SpeedNamed(selected: string): string {
    Text.ReplaceFirst(selected, " Mbps", "")
  }

  /**
   * `getFilteredPlans` as written: "all" keeps every plan; otherwise the company tab keeps
   * the plans of the selected company, ignoring case, and the speed tab keeps the plans
   * whose speed is the selected value with " Mbps" removed.
   */
  function FilteredPlans(plans: seq<TablePlan>, tab: Tab, selected: string): (r: seq<TablePlan>)
    ensures |r| <= |plans|
    ensures selected == "all" ==> r == plans
    ensures selected != "all" && tab == CompanyTab ==> forall i :: 0 <= i < |r| ==> SameCompany(r[i], selected)
    ensures selected != "all" && tab == SpeedTab ==> forall i :: 0 <= i < |r| ==> r[i].speed == SpeedNamed(selected)
  {
    if selected == "all" then plans
    else if tab == CompanyTab then Seqs.Filter(plans, p => SameCompany(p, selected))
    else Seqs.Filter(plans, (p: TablePlan) => p.speed == SpeedNamed(selected))
  }

  /** The predicate the filter applies to each plan. */
  predicate Kept(p: TablePlan, tab: Tab, selected: string) {
    selected == "all" || (if tab == CompanyTab then SameCompany(p, selected) else p.speed == SpeedNamed(selected))
  }

  /**
   * The table lists exactly the plans the selected value keeps: the result is a subsequence
   * of the input that holds every kept plan, and only kept plans.
   */
  lemma FilteredPlansExact(plans: seq<TablePlan>, tab: Tab, selected: string)
    ensures Seqs.Subsequence(FilteredPlans(plans, tab, selected), plans)
    ensures forall i :: 0 <= i < |plans| && Kept(plans[i], tab, selected) ==> plans[i] in FilteredPlans(plans, tab, selected)
    ensures forall x :: x in FilteredPlans(plans, tab, selected) ==> Kept(x, tab, selected)
  {
    if selected == "all" {
      var f := (p: TablePlan) => true;
      Seqs.FilterAll(plans, f);
      Seqs.FilterIsSubsequence(plans, f);
    } else if tab == CompanyTab {
      var f := (p: TablePlan) => SameCompany(p, selected);
      Seqs.FilterIsSubsequence(plans, f);
      Seqs.FilterMembers(plans, f);
    } else {
      var f := (p: TablePlan) => p.speed == SpeedNamed(selected);
      Seqs.FilterIsSubsequence(plans, f);
      Seqs.FilterMembers(plans, f);
    }
  }

  /**
   * The lower-cased choice of a speed option never contains " Mbps", so the speed tab as
   * written compares each plan's speed with the whole option, "100 mbps" say, and no plan
   * of the table has such a speed: every speed option shows an empty table.
   */
  lemma SpeedChoiceShowsNothing(f: string)
    requires f in SpeedFilters && f != "All"
    ensures FilteredPlans(Plans, SpeedTab, Text.ToLower(f)) == []
  {
    var selected := Text.ToLower(f);
    Text.ToLowerHasNoCapitals(f);
    forall j | 0 <= j && j + 5 <= |selected| ensures !Text.OccursAt(selected, " Mbps", j) {
      assert selected[j..j + 5][1] == selected[j + 1] != 'M';
    }
    assert selected != "all" by {
      assert |selected| == |f| >= 7;
    }
    assert SpeedNamed(selected) == selected;
    assert forall i :: 0 <= i < |Plans| ==> |Plans[i].speed| <= 3;
    Seqs.FilterNone(Plans, (p: TablePlan) => p.speed == SpeedNamed(selected));
  }

  /** The speed the stored, lower-cased, choice names: the first " mbps" removed. */
  function IntendedSpeedNamed(selected: string): string {
    Text.ReplaceFirst(selected, " mbps", "")
  }

  /** `getFilteredPlans` with the speed tab reading the lower-cased choice it is given. */
  function FilteredPlansIntended(plans: seq<TablePlan>, tab: Tab, selected: string): (r: seq<TablePlan>)
    ensures tab == CompanyTab ==> r == FilteredPlans(plans, tab, selected)
    ensures selected != "all" && tab == SpeedTab ==> forall i :: 0 <= i < |r| ==> r[i].speed == IntendedSpeedNamed(selected)
  {
    if selected == "all" then plans
    else if tab == CompanyTab then Seqs.Filter(plans, p => SameCompany(p, selected))
    else Seqs.Filter(plans, (p: TablePlan) => p.speed == IntendedSpeedNamed(selected))
  }

  /** Lower-casing a number followed by " Mbps" gives the number followed by " mbps". */
  lemma LowerSpeedOption(d: string)
    requires forall i :: 0 <= i < |d| ==> Text.IsDigit(d[i])
    ensures Text.ToLower(d + " Mbps") == d + " mbps"
  {
    Text.ToLowerAppend(d, " Mbps");
    assert Text.ToLower(d) == d;
    assert Text.ToLower(" Mbps") == " mbps";
  }

  /** In a number followed by " mbps", the first " mbps" is the one after the number. */
  lemma IntendedSpeedOfOption(d: string)
    requires forall i :: 0 <= i < |d| ==> Text.IsDigit(d[i])
    ensures IntendedSpeedNamed(d + " mbps") == d
  {
    var s := d + " mbps";
    assert Text.OccursAt(s, " mbps", |d|) by {
      assert s[|d|..|d| + 5] == " mbps";
    }
    var r := Text.IndexOf(s, " mbps");
    assert r.Some? && r.value <= |d|;
    forall j | 0 <= j < |d| ensures !Text.OccursAt(s, " mbps", j) {
      assert s[j] == d[j] != ' ';
    }
    assert s[..|d|] == d;
    assert s[|d| + 5..] == [];
  }

  /**
   * With the correction, choosing the option for a speed `d` shows exactly the plans whose
   * speed is `d`, in table order.
   */
  lemma SpeedChoiceIntended(plans: seq<TablePlan>, d: string)
    requires d != [] && forall i :: 0 <= i < |d| ==> Text.IsDigit(d[i])
    ensures FilteredPlansIntended(plans, SpeedTab, Text.ToLower(d + " Mbps"))
         == Seqs.Filter(plans, (p: TablePlan) => p.speed == d)
  {
    LowerSpeedOption(d);
    IntendedSpeedOfOption(d);
    var selected := d + " mbps";
    assert selected != "all" by {
      assert selected[|d|] == ' ';
    }
    assert ((p: TablePlan) => p.speed == IntendedSpeedNamed(selected)) == ((p: TablePlan) => p.speed == d);
  }

  /** The table's component state: the active tab, the stored choice and the dropdown. */
  class PlansTable {
    var activeTab: Tab
    var selectedFilter: string
    var isDropdownOpen: bool

    /** The values the dropdown offers on the active tab. */
    function Filters(): seq<string>
      reads this
    {
      if activeTab == CompanyTab then CompanyFilters else SpeedFilters
    }

    /** The stored choice is "all" or the lower-cased form of an option of the active tab. */
    predicate Valid()
      reads this
    {
      selectedFilter == "all" || exists i :: 0 <= i < |Filters()| && selectedFilter == Text.ToLower(Filters()[i])
    }

    /** The rows shown, by the filter as written. */
    function Visible(): seq<TablePlan>
      reads this
    {
      FilteredPlans(Plans, activeTab, selectedFilter)
    }

    /** The rows the corrected filter would show. */
    function IntendedVisible(): seq<TablePlan>
      reads this
    {
      FilteredPlansIntended(Plans, activeTab, selectedFilter)
    }

    constructor()
      ensures activeTab == CompanyTab && selectedFilter == "all" && !isDropdownOpen
      ensures Valid() && Visible() == Plans && IntendedVisible() == Plans
    {
      activeTab := CompanyTab;
      selectedFilter := "all";
      isDropdownOpen := false;
    }

    /** A tab button: the tab becomes active and the choice goes back to "all". */
    method SelectTab(tab: Tab)
      modifies this
      ensures activeTab == tab && selectedFilter == "all" && isDropdownOpen == old(isDropdownOpen)
      ensures Valid() && Visible() == Plans && IntendedVisible() == Plans
    {
      activeTab := tab;
      selectedFilter := "all";
    }

    /** The dropdown button flips the dropdown. */
    method ToggleDropdown()
      modifies this
      ensures isDropdownOpen == !old(isDropdownOpen)
      ensures activeTab == old(activeTab) && selectedFilter == old(selectedFilter)
      ensures old(Valid()) ==> Valid()
    {
      if selectedFilter != "all" && Valid() {
        ghost var i :| 0 <= i < |Filters()| && selectedFilter == Text.ToLower(Filters()[i]);
        isDropdownOpen := !isDropdownOpen;
        assert selectedFilter == Text.ToLower(Filters()[i]);
      } else {
        isDropdownOpen := !isDropdownOpen;
      }
    }

    /** An option of the dropdown: its lower-cased value is stored and the dropdown closes. */
    method ChooseFilter(filter: string)
      requires filter in Filters()
      modifies this
      ensures selectedFilter == Text.ToLower(filter) && !isDropdownOpen && activeTab == old(activeTab)
      ensures Valid()
      ensures filter == "All" ==> Visible() == Plans
      ensures old(activeTab) == SpeedTab && filter != "All" ==> Visible() == []
    {
      ghost var i :| 0 <= i < |Filters()| && Filters()[i] == filter;
      selectedFilter := Text.ToLower(filter);
      isDropdownOpen := false;
      assert selectedFilter == Text.ToLower(Filters()[i]);
      if filter == "All" {
        assert selectedFilter == "all";
      } else if activeTab == SpeedTab {
        SpeedChoiceShowsNothing(filter);
      }
    }
  }
}

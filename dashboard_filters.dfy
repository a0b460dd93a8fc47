/**
 * The search box and the status menu above the charts. The menu offers five
 * options; the button shows the chosen option's label; picking an option
 * sets the status filter and closes the menu.
 */
module DashboardFilters {
  import opened Loans

  datatype FilterOption = FilterOption(value: string, caption: string)

  /** `statusFilters`: the menu's options, in menu order. */
  const StatusFilters: seq<FilterOption> := [
    FilterOption("ALL", "All Statuses"),
    FilterOption("PENDING", "Pending"),
    FilterOption("APPROVED", "Approved"),
    FilterOption("REJECTED", "Rejected"),
    FilterOption("DISBURSED", "Disbursed")
  ]

  /** The button text when no option matches the current filter. */
  const FallbackLabel: string := "Filter"

  /** `options.find((f) => f.value === v)`: the first option with that value. */
  function FindOption(options: seq<FilterOption>, v: string): (r: Option<FilterOption>)
    ensures r.None? <==> forall i :: 0 <= i < |options| ==> options[i].value != v
    ensures r.Some? ==> exists i :: 0 <= i < |options| && options[i] == r.value && r.value.value == v &&
                                    forall j :: 0 <= j < i ==> options[j].value != v
  {
    if options == [] then None
    else if options[0].value == v then Some(options[0])
    else
      var r := FindOption(options[1..], v);
      assert r.Some? ==> exists i :: 0 <= i < |options| - 1 && options[1..][i] == r.value && r.value.value == v &&
                                    forall j :: 0 <= j < i ==> options[1..][j].value != v;
      if r.Some? then
        var i :| 0 <= i < |options| - 1 && options[1..][i] == r.value && r.value.value == v &&
                 forall j :: 0 <= j < i ==> options[1..][j].value != v;
        assert options[i + 1] == r.value;
        assert forall j :: 0 < j <= i ==> options[j] == options[1..][j - 1];
        r
      else
        r
  }

  /** `statusFilters.find(...)?.label || "Filter"`: the button label. */
  function FilterLabel(statusFilter: string): (r: string)
    ensures forall i :: 0 <= i < |StatusFilters| && StatusFilters[i].value == statusFilter ==>
              r == StatusFilters[i].caption
    ensures r == FallbackLabel <==>
              forall i :: 0 <= i < |StatusFilters| ==> StatusFilters[i].value != statusFilter
  {
    match FindOption(StatusFilters, statusFilter)
    case Some(option) => if option.caption != "" then option.caption else FallbackLabel
    case None => FallbackLabel
  }

  /** A status the menu does not list, such as CLOSED, shows "Filter". */
  lemma UnknownStatusShowsFallback()
    ensures FilterLabel("CLOSED") == "Filter"
  {
  }

  /** `selected={statusFilter === filter.value}` for each menu item, in menu order. */
  function SelectedFlags(statusFilter: string): (r: seq<bool>)
    ensures |r| == |StatusFilters|
    ensures forall i :: 0 <= i < |r| ==> (r[i] <==> StatusFilters[i].value == statusFilter)
  {
    seq(|StatusFilters|, i requires 0 <= i < |StatusFilters| => StatusFilters[i].value == statusFilter)
  }

  function CountTrue(flags: seq<bool>): nat
  {
    if flags == [] then 0 else (if flags[0] then 1 else 0) + CountTrue(flags[1..])
  }

  lemma {:induction false} CountTrueNone(flags: seq<bool>)
    requires forall i :: 0 <= i < |flags| ==> !flags[i]
    ensures CountTrue(flags) == 0
  {
    if flags != [] {
      CountTrueNone(flags[1..]);
    }
  }

  lemma {:induction false} CountTrueOne(flags: seq<bool>, k: nat)
    requires k < |flags| && flags[k]
    requires forall i :: 0 <= i < |flags| && i != k ==> !flags[i]
    ensures CountTrue(flags) == 1
  {
    if k == 0 {
      CountTrueNone(flags[1..]);
    } else {
      CountTrueOne(flags[1..], k - 1);
    }
  }

  /**
   * At most one menu item is highlighted, and exactly one when the filter
   * is one of the five option values.
   */
  lemma SelectionIsUnique(statusFilter: string)
    ensures CountTrue(SelectedFlags(statusFilter)) <= 1
    ensures CountTrue(SelectedFlags(statusFilter)) == 1 <==>
              exists i :: 0 <= i < |StatusFilters| && StatusFilters[i].value == statusFilter
  {
    var flags := SelectedFlags(statusFilter);
    if k :| 0 <= k < |StatusFilters| && StatusFilters[k].value == statusFilter {
      CountTrueOne(flags, k);
    } else {
      CountTrueNone(flags);
    }
  }

  /** The DOM element the menu is anchored to. */
  type Anchor = nat

  /**
   * The filter state the dashboard hands down with its setters:
   * `searchQuery`, `statusFilter` and `filterAnchorEl`.
   */
  class FilterControls {
    var searchQuery: string
    var statusFilter: string
    var anchor: Option<Anchor>

    /** The dashboard's initial `useState` values: no query, every status, menu closed. */
    constructor ()
      ensures searchQuery == "" && statusFilter == "ALL" && anchor == None
      ensures !MenuOpen()
    {
      searchQuery := "";
      statusFilter := "ALL";
      anchor := None;
    }

    /** `open={Boolean(filterAnchorEl)}`. */
    predicate MenuOpen()
      reads this
    {
      anchor.Some?
    }

    /** The search box's `onChange`. */
    method HandleSearchChange(query: string)
      modifies this
      ensures searchQuery == query
      ensures statusFilter == old(statusFilter) && anchor == old(anchor)
    {
      searchQuery := query;
    }

    /** handleFilterClick: anchors the menu to the clicked button, which opens it. */
    method HandleFilterClick(target: Anchor)
      modifies this
      ensures anchor == Some(target) && MenuOpen()
      ensures searchQuery == old(searchQuery) && statusFilter == old(statusFilter)
    {
      anchor := Some(target);
    }

    /** handleFilterClose: drops the anchor, which closes the menu. */
    method HandleFilterClose()
      modifies this
      ensures anchor == None && !MenuOpen()
      ensures searchQuery == old(searchQuery) && statusFilter == old(statusFilter)
    {
      anchor := None;
    }

    /** handleStatusFilterChange: records the chosen value, then closes the menu. */
    method HandleStatusFilterChange(status: string)
      modifies this
      ensures statusFilter == status && anchor == None && !MenuOpen()
      ensures searchQuery == old(searchQuery)
      ensures forall i :: 0 <= i < |StatusFilters| && StatusFilters[i].value == status ==>
                FilterLabel(statusFilter) == StatusFilters[i].caption
    {
      statusFilter := status;
      HandleFilterClose();
    }
  }
}

/**
 * The state budget explorer (components/StateBudgetExplorer.tsx): the
 * categories of a state budget, largest first, with one of them selected by
 * name; the selection falls back to the largest category and the explorer
 * shows nothing without categories.
 */
module StateBudgetExplorer {
  import opened Wrappers
  import opened JsArray
  import opened Sorting

  /** A budget category (lib/data/types.ts), without its provenance. */
  datatype BudgetCategory = BudgetCategory(
    name: string, amount: real, displayAmount: string, percentage: real, color: string)

  function Amount(category: BudgetCategory): real {
    category.amount
  }

  /** sortedCategories: a copy of the categories sorted by the stable
      `sort((a, b) => b.amount - a.amount)`. */
  function SortedCategories(categories: seq<BudgetCategory>): (sorted: seq<BudgetCategory>)
    ensures |sorted| == |categories| && multiset(sorted) == multiset(categories)
    ensures forall i, j | 0 <= i < j < |sorted| :: sorted[i].amount >= sorted[j].amount
  {
    SortDesc(categories, Amount)
  }

  /** Categories of equal amount keep their order in the budget. */
  lemma SortedKeepsTies(categories: seq<BudgetCategory>, amount: real)
    ensures WithKey(SortedCategories(categories), Amount, amount) == WithKey(categories, Amount, amount)
  {
    SortDescStable(categories, Amount, amount);
  }

  /** The initial selectedCategoryName: the first sorted category's name,
      or "" without categories. */
  function InitialName(sorted: seq<BudgetCategory>): (name: string)
    ensures sorted == [] ==> name == ""
    ensures sorted != [] ==> name == sorted[0].name
  {
    if sorted == [] then "" else sorted[0].name
  }

  /** The initial selection names the largest category of the budget, the
      first of them when several share the largest amount. */
  lemma InitialIsLargest(categories: seq<BudgetCategory>)
    requires categories != []
    ensures var m := FirstMaxIndex(categories, Amount);
            InitialName(SortedCategories(categories)) == categories[m].name
            && (forall j | 0 <= j < |categories| :: categories[j].amount <= categories[m].amount)
            && (forall j | 0 <= j < m :: categories[j].amount < categories[m].amount)
  {
    SortDescHead(categories, Amount);
  }

  /** selectedCategory: the category with the selected name, else the
      first sorted category, else none. */
  function Selected(sorted: seq<BudgetCategory>, selectedName: string): (r: Option<BudgetCategory>)
    ensures r.None? <==> sorted == []
    ensures r.Some? ==> r.value in sorted
    ensures (exists i | 0 <= i < |sorted| :: sorted[i].name == selectedName) ==> r.value.name == selectedName
    ensures (forall i | 0 <= i < |sorted| :: sorted[i].name != selectedName) && sorted != [] ==>
              r == Some(sorted[0])
  {
    match Find(sorted, (c: BudgetCategory) => c.name == selectedName)
    case Some(category) => Some(category)
    case None => if sorted == [] then None else Some(sorted[0])
  }

  /** The initial name selects the first sorted category. */
  lemma InitialSelection(sorted: seq<BudgetCategory>)
    ensures Selected(sorted, InitialName(sorted)) == if sorted == [] then None else Some(sorted[0])
  {
    if sorted != [] {
      var p := (c: BudgetCategory) => c.name == sorted[0].name;
      assert FindIndex(sorted, p) == Some(0);
    }
  }

  /** Selecting a listed category shows a category of that name; the first
      one when names repeat. */
  lemma SelectingShowsIt(sorted: seq<BudgetCategory>, k: nat)
    requires k < |sorted|
    ensures Selected(sorted, sorted[k].name).Some?
    ensures Selected(sorted, sorted[k].name).value.name == sorted[k].name
    ensures (forall j | 0 <= j < |sorted| && j != k :: sorted[j].name != sorted[k].name) ==>
              Selected(sorted, sorted[k].name) == Some(sorted[k])
  {
    var p := (c: BudgetCategory) => c.name == sorted[k].name;
    var found := FindIndex(sorted, p);
    assert p(sorted[k]);
    if forall j | 0 <= j < |sorted| && j != k :: sorted[j].name != sorted[k].name {
      assert found.value == k;
    }
  }

  /** What the explorer shows: the selected category's name in the sidebar
      and the donut, its amount in the donut's centre and its detail. */
  datatype ExplorerView = ExplorerView(
    sidebarSelected: string, activeName: string, centerLabel: string, centerValue: string, detail: BudgetCategory)

  /** The render: nothing without a selected category. */
  function Render(sorted: seq<BudgetCategory>, selectedName: string): (view: Option<ExplorerView>)
    ensures view.None? <==> sorted == []
    ensures view.Some? ==>
              var c := Selected(sorted, selectedName).value;
              view.value == ExplorerView(c.name, c.name, c.name, c.displayAmount, c)
  {
    match Selected(sorted, selectedName)
    case None => None
    case Some(c) => Some(ExplorerView(c.name, c.name, c.name, c.displayAmount, c))
  }

  /** The component's state over one budget's categories. */
  class Explorer {
    const sortedCategories: seq<BudgetCategory>
    var selectedCategoryName: string

    constructor(categories: seq<BudgetCategory>)
      ensures sortedCategories == SortedCategories(categories)
      ensures selectedCategoryName == InitialName(sortedCategories)
    {
      sortedCategories := SortedCategories(categories);
      selectedCategoryName := InitialName(SortedCategories(categories));
    }

    function View(): Option<ExplorerView>
      reads this
    {
      Render(sortedCategories, selectedCategoryName)
    }

    /** onSelectCategory, from the sidebar or the donut. */
    method SelectCategory(category: BudgetCategory)
      modifies this
      ensures selectedCategoryName == category.name
      ensures category in sortedCategories ==> View().Some? && View().value.activeName == category.name
    {
      selectedCategoryName := category.name;
      if category in sortedCategories {
        var k :| 0 <= k < |sortedCategories| && sortedCategories[k] == category;
        SelectingShowsIt(sortedCategories, k);
      }
    }
  }
}

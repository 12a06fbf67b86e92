/**
 * The customer menu (frontend/src/pages/MenuPage.jsx): menu items grouped by
 * category and name with their size variants ordered, the category and
 * search filters, the selected variant, and the cart figures for the
 * selected table.
 */
module MenuPage {
  import opened Base
  import opened Sorting
  import opened Grouping
  import opened Cart

  /** `${category}||${name}`: variants of one dish share it. */
  function GroupKey(e: MenuEntry): string {
    e.category + "||" + e.name
  }

  /** The lower-cased size name, "" when there is none. */
  function Size(e: MenuEntry): string {
    Lower(OrElse(e.subCategory, ""))
  }

  /** `order.indexOf(size)` over ["small", "medium", "large"]. */
  function SizeIndex(e: MenuEntry): int {
    if Size(e) == "small" then 0 else if Size(e) == "medium" then 1 else if Size(e) == "large" then 2 else -1
  }

  /** The variant comparator as written: unknown sizes after known ones, known ones by position. */
  function CompareVariants(a: MenuEntry, b: MenuEntry): int {
    var ai, bi := SizeIndex(a), SizeIndex(b);
    if ai == -1 && bi == -1 then 0
    else if ai == -1 then 1
    else if bi == -1 then -1
    else ai - bi
  }

  /** The sort key the comparator induces: small, medium, large, then any other size. */
  function Rank(e: MenuEntry): real {
    if SizeIndex(e) == -1 then 3.0 else SizeIndex(e) as real
  }

  /** The comparator orders two variants exactly as their ranks do. */
  lemma CompareIsRankOrder(a: MenuEntry, b: MenuEntry)
    ensures CompareVariants(a, b) < 0 <==> Rank(a) < Rank(b)
    ensures CompareVariants(a, b) == 0 <==> Rank(a) == Rank(b)
    ensures CompareVariants(a, b) > 0 <==> Rank(a) > Rank(b)
  {
  }

  /** One card: the first item seen for the key and all variants, ordered by size. */
  datatype MenuGroup = MenuGroup(key: string, base: MenuEntry, variants: seq<MenuEntry>)

  /**
   * The card for key `k`: its base is the first item with that key and its
   * variants are all items with that key, stably sorted small, medium,
   * large, other.
   */
  function GroupOf(items: seq<MenuEntry>, k: string): MenuGroup
    requires k in GroupKeys(items, GroupKey)
  {
    WhereNonEmpty(items, GroupKey, k);
    var members := Where(items, GroupKey, k);
    MenuGroup(k, members[0], SortByKey(members, Rank))
  }

  /**
   * A card holds exactly the items of its key, ordered by size and stable
   * within a size, and its base is the first menu item with that key.
   */
  lemma GroupOfFacts(items: seq<MenuEntry>, k: string)
    requires k in GroupKeys(items, GroupKey)
    ensures GroupOf(items, k).key == k && GroupOf(items, k).variants != []
    ensures multiset(GroupOf(items, k).variants) == multiset(Where(items, GroupKey, k))
    ensures forall x :: x in GroupOf(items, k).variants <==> x in items && GroupKey(x) == k
    ensures forall i, j :: 0 <= i < j < |GroupOf(items, k).variants| ==>
              Rank(GroupOf(items, k).variants[i]) <= Rank(GroupOf(items, k).variants[j])
    ensures forall v :: KeyClass(GroupOf(items, k).variants, Rank, v) == KeyClass(Where(items, GroupKey, k), Rank, v)
    ensures exists i :: 0 <= i < |items| && items[i] == GroupOf(items, k).base && GroupKey(items[i]) == k &&
                        forall j :: 0 <= j < i ==> GroupKey(items[j]) != k
  {
    WhereNonEmpty(items, GroupKey, k);
    WhereHead(items, GroupKey, k);
    WhereMembers(items, GroupKey, k);
    var members := Where(items, GroupKey, k);
    var sorted := SortByKey(members, Rank);
    assert |sorted| == |multiset(sorted)| == |members|;
    assert SortedByKey(sorted, Rank);
    forall x ensures x in sorted <==> x in members {
      assert x in sorted <==> x in multiset(sorted);
      assert x in members <==> x in multiset(members);
    }
  }

  /**
   * `groupedMenu`: one card per category and name, in order of first
   * appearance.
   */
  method GroupedMenu(items: seq<MenuEntry>) returns (groups: seq<MenuGroup>)
    ensures |groups| == |GroupKeys(items, GroupKey)|
    ensures forall g :: 0 <= g < |groups| ==>
              GroupKeys(items, GroupKey)[g] in GroupKeys(items, GroupKey) &&
              groups[g] == GroupOf(items, GroupKeys(items, GroupKey)[g])
  {
    var keys, lists := GroupLists(items, GroupKey);
    groups := [];
    for g := 0 to |keys|
      invariant |groups| == g
      invariant forall h :: 0 <= h < |keys| ==> keys[h] in GroupKeys(items, GroupKey)
      invariant forall h :: 0 <= h < g ==> groups[h] == GroupOf(items, keys[h])
    {
      var k := keys[g];
      var members := lists[k];
      WhereNonEmpty(items, GroupKey, k);
      var card := MenuGroup(k, members[0], SortByKey(members, Rank));
      assert card == GroupOf(items, k);
      ghost var prev := groups;
      groups := groups + [card];
      forall h | 0 <= h < g + 1 ensures groups[h] == GroupOf(items, keys[h]) {
        if h < g { assert groups[h] == prev[h]; }
      }
    }
  }

  /** Every menu item is a variant of the card of its own key and of no other card. */
  lemma EachItemInOneGroup(items: seq<MenuEntry>, x: MenuEntry)
    requires x in items
    ensures GroupKey(x) in GroupKeys(items, GroupKey)
    ensures x in GroupOf(items, GroupKey(x)).variants
    ensures forall k :: k in GroupKeys(items, GroupKey) && x in GroupOf(items, k).variants ==> k == GroupKey(x)
  {
    GroupKeysFacts(items, GroupKey);
    GroupOfFacts(items, GroupKey(x));
    forall k | k in GroupKeys(items, GroupKey) && x in GroupOf(items, k).variants ensures k == GroupKey(x) {
      GroupOfFacts(items, k);
    }
  }

  /** A card is shown when its category is the selected one (or "All") and its name contains the search, ignoring case. */
  predicate Shown(g: MenuGroup, selectedCategory: string, search: string) {
    (selectedCategory == "All" || g.base.category == selectedCategory) && IncludesIgnoreCase(g.base.name, search)
  }

  /** `filteredGroups`: the shown groups, in order. */
  function FilteredGroups(groups: seq<MenuGroup>, selectedCategory: string, search: string): (r: seq<MenuGroup>)
    ensures forall g :: g in r <==>
              g in groups && (selectedCategory == "All" || g.base.category == selectedCategory) &&
              Contains(Lower(g.base.name), Lower(search))
    ensures |r| <= |groups|
  {
    Filter(groups, (g: MenuGroup) => Shown(g, selectedCategory, search))
  }

  /** An empty search with "All" shows every card. */
  lemma EverythingShownByDefault(groups: seq<MenuGroup>)
    ensures forall g :: g in groups ==> g in FilteredGroups(groups, "All", "")
  {
    forall g | g in groups ensures g in FilteredGroups(groups, "All", "") {
      EmptyPatternOccurs(Lower(g.base.name));
    }
  }

  /**
   * `getCurrentVariant`: nothing without variants; the first variant when no
   * size is selected or none matches; otherwise the first variant whose
   * lower-cased size is the selection.
   */
  function CurrentVariant(variants: seq<MenuEntry>, selected: Option<string>): (r: Option<MenuEntry>)
    ensures r.None? <==> variants == []
    ensures r.Some? ==> r.value in variants
    ensures variants != [] && !Truthy(selected) ==> r == Some(variants[0])
    ensures variants != [] && Truthy(selected) && (forall k :: 0 <= k < |variants| ==> Size(variants[k]) != selected.value) ==>
              r == Some(variants[0])
    ensures variants != [] && Truthy(selected) && (exists k :: 0 <= k < |variants| && Size(variants[k]) == selected.value) ==>
              exists k :: 0 <= k < |variants| && r == Some(variants[k]) && Size(variants[k]) == selected.value &&
                          forall j :: 0 <= j < k ==> Size(variants[j]) != selected.value
  {
    if variants == [] then None
    else if !Truthy(selected) then Some(variants[0])
    else
      match FirstIndex(variants, (v: MenuEntry) => Size(v) == selected.value)
      case Some(k) => Some(variants[k])
      case None => Some(variants[0])
  }

  /** The item object of the selected table's open batch, empty when there is none. */
  function OpenItems(tables: map<string, TableCart>, selectedTable: string): seq<CartItem> {
    if selectedTable !in tables then []
    else
      match OpenIndex(tables[selectedTable].orders)
      case Some(i) => tables[selectedTable].orders[i].items
      case None => []
  }

  /** `totalItems` and `totalAmount` of the cart bar: units and amount of the open batch, 0 without one. */
  function CartTotals(tables: map<string, TableCart>, selectedTable: string): (r: (int, real))
    ensures OpenItems(tables, selectedTable) == [] ==> r == (0, 0.0)
    ensures r == (Units(OpenItems(tables, selectedTable)), Amount(OpenItems(tables, selectedTable)))
  {
    (Units(OpenItems(tables, selectedTable)), Amount(OpenItems(tables, selectedTable)))
  }

  /** A tap on "add" raises the cart bar's unit count by exactly one. */
  lemma AddRaisesTotalItems(orders: seq<CartBatch>, tables: map<string, TableCart>, name: string, added: CartItem, newId: int)
    requires ValidOrders(orders) && added.quantity == 1
    requires (name in tables ==> tables[name].orders == orders) && (name !in tables ==> orders == [])
    ensures CartTotals(tables[name := TableCart(AddedToOpen(orders, added, newId))], name).0 ==
            CartTotals(tables, name).0 + 1
  {
    AddedToOpenShape(orders, added, newId);
  }

  /** `variantKey`, written out on the page: the same string as the cart's item key. */
  function VariantKey(v: MenuEntry): (r: string)
    ensures r == ItemKey(v)
  {
    v.id + "::" + Lower(OrElse(v.subCategory, "regular"))
  }

  /** `cartItems[variantKey]?.quantity || 0`: the badge on a card. */
  function InCart(items: seq<CartItem>, v: MenuEntry): int {
    QuantityOf(items, VariantKey(v))
  }

  /** Adding the shown variant to the open batch raises its badge by one. */
  lemma AddRaisesBadge(items: seq<CartItem>, v: MenuEntry)
    requires ValidItems(items)
    ensures InCart(Bump(items, CartItem(v.(subCategory := Some(OrElse(v.subCategory, "regular"))), 1, ItemKey(v))), v) ==
            InCart(items, v) + 1
  {
    BumpQuantity(items, CartItem(v.(subCategory := Some(OrElse(v.subCategory, "regular"))), 1, ItemKey(v)));
  }
}

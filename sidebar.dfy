/** The sidebar: the screens a signed-in user may open, in the fixed order
    the menu lists them. */
module Sidebar {
  import opened Types
  import opened Seqs

  /** The permission each entry of allNavItems asks for. */
  function NavPermission(s: Screen): Permission {
    match s
    case Sales => CanAccessSales
    case SalesHistory => CanAccessSalesHistory
    case Shifts => CanAccessShifts
    case Menu => CanAccessMenu
    case Inventory => CanAccessInventory
    case Customers => CanAccessCustomers
    case Suppliers => CanAccessSuppliers
    case Purchases => CanAccessPurchases
    case Reports => CanAccessReports
    case Settings => CanAccessSettings
    case Users => CanManageUsers
  }

  /** orderedScreens. */
  const OrderedScreens: seq<Screen> :=
    [Sales, SalesHistory, Shifts, Menu, Inventory, Customers, Suppliers, Purchases, Reports, Settings, Users]

  /** The place of a screen in orderedScreens. */
  function Rank(s: Screen): real {
    match s
    case Sales => 0.0
    case SalesHistory => 1.0
    case Shifts => 2.0
    case Menu => 3.0
    case Inventory => 4.0
    case Customers => 5.0
    case Suppliers => 6.0
    case Purchases => 7.0
    case Reports => 8.0
    case Settings => 9.0
    case Users => 10.0
  }

  function Granted(perms: set<Permission>): Screen -> bool {
    (s: Screen) => NavPermission(s) in perms
  }

  /** navItems: nothing without a user, else the ordered screens whose
      permission the user holds. */
  function NavItems(user: Option<User>): seq<Screen> {
    if user.None? then [] else Filter(OrderedScreens, Granted(user.value.permissions))
  }

  predicate StrictlyOrdered(s: seq<Screen>) {
    forall i, j :: 0 <= i < j < |s| ==> Rank(s[i]) < Rank(s[j])
  }

  /** Filtering keeps a list in its order. */
  lemma {:induction false} FilterKeepsOrder(s: seq<Screen>, p: Screen -> bool)
    requires StrictlyOrdered(s)
    ensures StrictlyOrdered(Filter(s, p))
    decreases |s|
  {
    if |s| > 0 {
      var init := s[..|s| - 1];
      assert StrictlyOrdered(init);
      FilterKeepsOrder(init, p);
      if p(s[|s| - 1]) {
        var r := Filter(init, p);
        forall i | 0 <= i < |r| ensures Rank(r[i]) < Rank(s[|s| - 1]) {
          assert r[i] in init;
        }
      }
    }
  }

  /** Each screen's rank is its index in orderedScreens, whose every screen
      appears in it once. */
  lemma OrderedScreensRanked(s: Screen)
    ensures |OrderedScreens| == 11
    ensures forall i :: 0 <= i < |OrderedScreens| ==> Rank(OrderedScreens[i]) == i as real
    ensures StrictlyOrdered(OrderedScreens)
    ensures s in OrderedScreens
  {
    assert s == OrderedScreens[Rank(s).Floor];
  }

  /** No user sees no entry; a screen is listed exactly when the user holds
      its permission; the list follows orderedScreens, so no screen is listed
      twice; an admin sees all eleven. */
  lemma NavItemsExact(user: Option<User>, s: Screen)
    ensures user.None? ==> NavItems(user) == []
    ensures s in NavItems(user) <==> user.Some? && NavPermission(s) in user.value.permissions
    ensures StrictlyOrdered(NavItems(user))
    ensures forall i, j :: 0 <= i < j < |NavItems(user)| ==> NavItems(user)[i] != NavItems(user)[j]
    ensures user.Some? && (forall p: Permission :: p in user.value.permissions) ==> NavItems(user) == OrderedScreens
  {
    OrderedScreensRanked(s);
    if user.Some? {
      FilterKeepsOrder(OrderedScreens, Granted(user.value.permissions));
      if forall p: Permission :: p in user.value.permissions {
        FilterKeepsAll(OrderedScreens, Granted(user.value.permissions));
      }
    }
  }
}

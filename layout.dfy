/** The navigation sidebar: the full list of screens, and the ones a role
    may open. */
module Layout {
  import opened Collections
  import opened Types

  /** A sidebar entry; its icon is not modelled. */
  datatype NavItem = NavItem(view: View, caption: string, roles: seq<Role>)

  /** Every screen, in sidebar order. */
  function AllNavItems(): seq<NavItem>
  {
    [ NavItem(TerminalView, "POS Terminal", [AdminRole, SalesmanRole]),
      NavItem(InventoryView, "Inventory", [AdminRole]),
      NavItem(StaffView, "Staff Hub", [AdminRole]),
      NavItem(AnalyticsView, "Analytics", [AdminRole]),
      NavItem(SettingsView, "Settings", [AdminRole]) ]
  }

  /** The entries of `items` open to `role`, in order. */
  function NavItems(items: seq<NavItem>, role: Role): (r: seq<NavItem>)
    ensures forall i :: 0 <= i < |r| ==> r[i] in items && role in r[i].roles
    ensures forall i :: 0 <= i < |items| ==> (items[i] in r <==> role in items[i].roles)
    ensures Subsequence(r, items)
  {
    Filter(items, (item: NavItem) => role in item.roles)
  }

  function Views(items: seq<NavItem>): (r: seq<View>)
    ensures |r| == |items| && forall i :: 0 <= i < |items| ==> r[i] == items[i].view
  {
    seq(|items|, i requires 0 <= i < |items| => items[i].view)
  }

  /** The sidebar lists the five screens in this order. */
  lemma SidebarOrder()
    ensures Views(AllNavItems()) == [TerminalView, InventoryView, StaffView, AnalyticsView, SettingsView]
  {
    var v := Views(AllNavItems());
    assert v[0] == TerminalView && v[1] == InventoryView && v[2] == StaffView;
    assert v[3] == AnalyticsView && v[4] == SettingsView;
  }

  /** An administrator sees every screen, in sidebar order. */
  lemma AdminSeesEverything()
    ensures NavItems(AllNavItems(), AdminRole) == AllNavItems()
    ensures Views(NavItems(AllNavItems(), AdminRole)) ==
              [TerminalView, InventoryView, StaffView, AnalyticsView, SettingsView]
  {
    var all := AllNavItems();
    assert NavItems(all, AdminRole) == all by {
      forall i | 0 <= i < |all| ensures AdminRole in all[i].roles {
        assert all[i].roles[0] == AdminRole;
      }
    }
    SidebarOrder();
  }

  /** A salesman sees the terminal only. */
  lemma SalesmanSeesTerminal()
    ensures NavItems(AllNavItems(), SalesmanRole) == AllNavItems()[..1]
    ensures Views(NavItems(AllNavItems(), SalesmanRole)) == [TerminalView]
  {
    var all := AllNavItems();
    assert forall i :: 1 <= i < |all| ==> all[i].roles == [AdminRole];
    OnlyHeadOpen(all, SalesmanRole);
    assert Views(all[..1])[0] == TerminalView;
  }

  /** When only the first entry is open to `role`, the role sees that entry alone. */
  lemma OnlyHeadOpen(items: seq<NavItem>, role: Role)
    requires items != [] && role in items[0].roles
    requires forall i :: 1 <= i < |items| ==> role !in items[i].roles
    ensures NavItems(items, role) == items[..1]
  {
    var others := items[1..];
    assert NavItems(others, role) == [] by {
      forall i | 0 <= i < |others| ensures role !in others[i].roles {
        assert others[i] == items[i + 1];
      }
      FilterNone(others, (item: NavItem) => role in item.roles);
    }
    assert items[..1] == [items[0]];
  }

  /** Every screen a salesman may open is open to an administrator. */
  lemma SalesmanViewsAreAdminViews()
    ensures forall i :: 0 <= i < |NavItems(AllNavItems(), SalesmanRole)| ==>
              NavItems(AllNavItems(), SalesmanRole)[i] in NavItems(AllNavItems(), AdminRole)
  {
    SalesmanSeesTerminal();
    AdminSeesEverything();
  }
}

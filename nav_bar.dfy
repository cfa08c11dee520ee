// components/nav-bar.tsx: the sidebar's links and which one is highlighted
// for the current path.

module Navigation {
  import opened Wrappers

  datatype NavItem = NavItem(href: string, title: string)

  /** `navItems`, in display order. */
  const NavItems: seq<NavItem> := [
    NavItem("/dashboard", "Dashboard"),
    NavItem("/chat", "Chat"),
    NavItem("/journal", "Journal"),
    NavItem("/insights", "Insights"),
    NavItem("/music", "Music"),
    NavItem("/settings/ai-test", "AI Test"),
    NavItem("/settings/debug", "Debug")
  ]

  /** `pathname === item.href || pathname?.startsWith(`${item.href}/`)`; a null pathname matches nothing. */
  predicate IsActive(pathname: Option<string>, href: string)
  {
    pathname == Some(href) || (pathname.Some? && href + "/" <= pathname.value)
  }

  /** An item is highlighted on its own page and on every page below it, and nowhere without a path. */
  lemma ActiveOnPageAndBelow(href: string, rest: string)
    ensures IsActive(Some(href), href)
    ensures IsActive(Some(href + "/" + rest), href)
    ensures !IsActive(None, href)
  {
    assert href + "/" <= href + "/" + rest;
  }

  /**
   * A path that only shares leading characters with the href, continuing it
   * with something other than "/", is not below the item.
   */
  lemma SharedPrefixIsNotActive(href: string, path: string)
    requires href < path && path[|href|] != '/'
    ensures !IsActive(Some(path), href)
  {
  }

  /** "/chatroom" does not highlight "/chat", nor "/journalist" "/journal". */
  lemma SiblingPagesAreNotActive()
    ensures !IsActive(Some("/chatroom"), "/chat")
    ensures !IsActive(Some("/journalist"), "/journal")
  {
    assert "/chat" < "/chatroom" && "/chatroom"[5] == 'r';
    SharedPrefixIsNotActive("/chat", "/chatroom");
    assert "/journal" < "/journalist" && "/journalist"[8] == 'i';
    SharedPrefixIsNotActive("/journal", "/journalist");
  }

  /**
   * Two items active on one path have equal hrefs, or one item's href
   * followed by "/" starts the other's.
   */
  lemma {:induction false} BothActive(pathname: Option<string>, a: string, b: string)
    requires IsActive(pathname, a) && IsActive(pathname, b)
    ensures a == b || a + "/" <= b || b + "/" <= a
  {
    var p := pathname.value;
    if |a| < |b| {
      assert (a + "/") == p[..|a| + 1];
      assert b[..|a| + 1] == p[..|a| + 1];
    } else if |b| < |a| {
      assert (b + "/") == p[..|b| + 1];
      assert a[..|b| + 1] == p[..|b| + 1];
    } else {
      assert a == p[..|a|] && b == p[..|b|];
    }
  }

  /** No two items share an href, and no href continues another with "/". */
  predicate Independent(hrefs: seq<string>)
  {
    forall i, j :: 0 <= i < |hrefs| && 0 <= j < |hrefs| && i != j ==>
      hrefs[i] != hrefs[j] && !(hrefs[i] + "/" <= hrefs[j])
  }

  function Hrefs(items: seq<NavItem>): seq<string>
  {
    seq(|items|, i requires 0 <= i < |items| => items[i].href)
  }

  /** The seven links are independent. */
  lemma NavItemsIndependent()
    ensures Independent(Hrefs(NavItems))
  {
    var h := Hrefs(NavItems);
    assert h == ["/dashboard", "/chat", "/journal", "/insights", "/music", "/settings/ai-test", "/settings/debug"];
    forall i, j | 0 <= i < 7 && 0 <= j < 7 && i != j
      ensures h[i] != h[j] && !(h[i] + "/" <= h[j])
    {
      if h[i][1] != h[j][1] {
        assert (h[i] + "/")[1] == h[i][1];
      } else {
        assert {i, j} == {5, 6};
        assert (h[i] + "/")[10] == h[i][10] != h[j][10];
      }
    }
  }

  /** At most one item is highlighted, whatever the path. */
  lemma AtMostOneActive(pathname: Option<string>)
    ensures forall i, j ::
      (0 <= i < |NavItems| && 0 <= j < |NavItems|
       && IsActive(pathname, NavItems[i].href) && IsActive(pathname, NavItems[j].href)) ==> i == j
  {
    NavItemsIndependent();
    var h := Hrefs(NavItems);
    forall i, j | 0 <= i < |NavItems| && 0 <= j < |NavItems|
      && IsActive(pathname, NavItems[i].href) && IsActive(pathname, NavItems[j].href)
      ensures i == j
    {
      BothActive(pathname, h[i], h[j]);
    }
  }
}

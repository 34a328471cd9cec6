/** The dashboard sidebar's choice of the highlighted navigation item. */
module Sidebar {
  import opened Strings

  datatype NavItem = NavItem(title: string, url: string)

  /** The navigation items, in display order. */
  const NavigationItems: seq<NavItem> := [
    NavItem("Dashboard", "/dashboard"),
    NavItem("Upload Video", "/dashboard/upload"),
    NavItem("My Projects", "/dashboard/projects"),
    NavItem("Billing", "/dashboard/billing"),
    NavItem("Settings", "/dashboard/settings")]

  /** `isActive`: the dashboard item only on its own path, every other item on any path
      its URL is a raw string prefix of (so "/dashboard/uploads" activates Upload Video). */
  predicate IsActive(currentPath: string, path: string) {
    if path == "/dashboard" then currentPath == "/dashboard" else StartsWith(currentPath, path)
  }

  const ActiveClass := "bg-primary text-primary-foreground font-medium glow-primary"
  const InactiveClass := "hover:bg-sidebar-accent hover:text-sidebar-accent-foreground"

  /** `getNavCls`: the highlighted classes exactly for the active item. */
  function NavClass(currentPath: string, path: string): (r: string)
    ensures r == ActiveClass <==> IsActive(currentPath, path)
    ensures r == InactiveClass <==> !IsActive(currentPath, path)
  {
    if IsActive(currentPath, path) then ActiveClass else InactiveClass
  }

  /** Two prefixes of one string: the shorter is a prefix of the longer. */
  lemma PrefixesNest(s: string, a: string, b: string)
    requires StartsWith(s, a) && StartsWith(s, b) && |a| <= |b|
    ensures StartsWith(b, a)
  {
    assert b[..|a|] == s[..|b|][..|a|];
  }

  /** The four items below the dashboard share "/dashboard/" and differ in the character
      after it, so no path starts with two of them. */
  lemma SubpagesExclusive(currentPath: string, i: nat, j: nat)
    requires 1 <= i < j < |NavigationItems|
    ensures !(StartsWith(currentPath, NavigationItems[i].url) && StartsWith(currentPath, NavigationItems[j].url))
  {
    var a, b := NavigationItems[i].url, NavigationItems[j].url;
    if StartsWith(currentPath, a) && StartsWith(currentPath, b) {
      if |a| <= |b| {
        PrefixesNest(currentPath, a, b);
        NotStartsWithAt(b, a, 11);
      } else {
        PrefixesNest(currentPath, b, a);
        NotStartsWithAt(a, b, 11);
      }
    }
  }

  /** For any current path at most one navigation item is active. */
  lemma AtMostOneActive(currentPath: string, i: nat, j: nat)
    requires i < j < |NavigationItems|
    ensures !(IsActive(currentPath, NavigationItems[i].url) && IsActive(currentPath, NavigationItems[j].url))
  {
    if i == 0 {
      assert NavigationItems[j].url != "/dashboard";
      if currentPath == "/dashboard" {
        assert |NavigationItems[j].url| > |currentPath|;
      }
    } else {
      SubpagesExclusive(currentPath, i, j);
    }
  }

  /** The upload page highlights Upload Video and not the dashboard. */
  lemma UploadPageHighlight()
    ensures IsActive("/dashboard/upload", NavigationItems[1].url)
    ensures !IsActive("/dashboard/upload", NavigationItems[0].url)
  {
  }
}

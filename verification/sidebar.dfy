/** The side menu: an entry with children is expanded exactly when the
    current URL starts with one of its children's routes, and its chevron
    toggles that state by hand. */
module Sidebar {
  import opened Values
  import opened Text

  datatype Link = Link(title: string, route: string)

  /** A menu entry; `children` is present only on groups. */
  datatype MenuItem = MenuItem(
    title: string,
    route: string,
    exact: bool,
    children: Option<seq<Link>>,
    isExpanded: Option<bool>)

  function Menu(): (m: seq<MenuItem>)
    ensures |m| == 4
    ensures m[2].children.Some? && |m[2].children.value| == 4
    ensures m[0].children.None? && m[1].children.None? && m[3].children.None?
  {
    [ MenuItem("Dashboard", "/dashboard", true, None, None),
      MenuItem("Users", "/users", false, None, None),
      MenuItem("Manage Content", "/content", false,
               Some([Link("Hobbies", "/content/hobbies"), Link("Religions", "/content/religions"),
                     Link("Educations", "/content/educations"),
                     Link("Sexual Orientations", "/content/sexual-orientations")]),
               Some(false)),
      MenuItem("Settings", "/settings", false, None, None) ]
  }

  /** `children.some(child => url.startsWith(child.route))`. */
  function AnyPrefix(url: string, links: seq<Link>): (b: bool)
    ensures b <==> exists i :: 0 <= i < |links| && StartsWith(url, links[i].route)
  {
    if |links| == 0 then false
    else if StartsWith(url, links[0].route) then true
    else
      var b := AnyPrefix(url, links[1..]);
      assert b ==> exists i :: 0 <= i < |links| && StartsWith(url, links[i].route) by {
        if b {
          var i :| 0 <= i < |links[1..]| && StartsWith(url, links[1..][i].route);
          assert links[i + 1] == links[1..][i];
        }
      }
      b
  }

  /** One entry under `updateMenuExpansion`. */
  function Expand(item: MenuItem, url: string): (r: MenuItem)
    ensures item.children.None? ==> r == item
    ensures item.children.Some? ==> r == item.(isExpanded := Some(AnyPrefix(url, item.children.value)))
  {
    if item.children.Some? then item.(isExpanded := Some(AnyPrefix(url, item.children.value))) else item
  }

  /** `updateMenuExpansion`: every group is expanded exactly when one of its
      children's routes is a prefix of the URL; plain entries are untouched. */
  function UpdateExpansion(items: seq<MenuItem>, url: string): (r: seq<MenuItem>)
    ensures |r| == |items|
    ensures forall i :: 0 <= i < |items| && items[i].children.None? ==> r[i] == items[i]
    ensures forall i :: 0 <= i < |items| && items[i].children.Some? ==>
      (r[i].isExpanded == Some(true) <==> exists j :: 0 <= j < |items[i].children.value|
                                            && StartsWith(url, items[i].children.value[j].route))
    ensures forall i :: 0 <= i < |items| ==> r[i].(isExpanded := items[i].isExpanded) == items[i]
  {
    seq(|items|, i requires 0 <= i < |items| => Expand(items[i], url))
  }

  /** The expansion depends on the URL alone: applying it twice is applying it once. */
  lemma UpdateExpansionIdempotent(items: seq<MenuItem>, url: string)
    ensures UpdateExpansion(UpdateExpansion(items, url), url) == UpdateExpansion(items, url)
  {
  }

  /** `toggleSubMenu` of entry `i`: a group flips its state (a missing state
      counts as collapsed); a plain entry is untouched. */
  function Toggle(items: seq<MenuItem>, i: nat): (r: seq<MenuItem>)
    requires i < |items|
    ensures |r| == |items|
    ensures forall j :: 0 <= j < |items| && j != i ==> r[j] == items[j]
    ensures items[i].children.None? ==> r == items
    ensures items[i].children.Some? ==> r[i] == items[i].(isExpanded := Some(!IsTrue(items[i].isExpanded)))
  {
    if items[i].children.Some? then items[i := items[i].(isExpanded := Some(!IsTrue(items[i].isExpanded)))]
    else items
  }

  /** Toggling twice restores whether the entry shows as expanded, and any
      explicit state exactly. */
  lemma ToggleTwice(items: seq<MenuItem>, i: nat)
    requires i < |items|
    ensures IsTrue(Toggle(Toggle(items, i), i)[i].isExpanded) == IsTrue(items[i].isExpanded)
    ensures items[i].isExpanded.Some? || items[i].children.None? ==> Toggle(Toggle(items, i), i) == items
  {
    if items[i].isExpanded.Some? && items[i].children.Some? {
      assert IsTrue(items[i].isExpanded) == items[i].isExpanded.value;
      assert Toggle(Toggle(items, i), i)[i] == items[i];
    }
  }

  /** The match is a raw string prefix, not a path segment: `/content/hobbiesX`
      still opens Manage Content, while `/content` alone does not. */
  lemma RawPrefixMatch()
    ensures UpdateExpansion(Menu(), "/content/hobbiesX")[2].isExpanded == Some(true)
    ensures UpdateExpansion(Menu(), "/content")[2].isExpanded == Some(false)
  {
    var kids := Menu()[2].children.value;
    assert StartsWith("/content/hobbiesX", kids[0].route);
    assert forall j :: 0 <= j < |kids| ==> |kids[j].route| > |"/content"|;
  }
}

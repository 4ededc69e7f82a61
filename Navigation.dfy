/**
 * The navigation bar: three links, each given the class "active" exactly
 * when the router's current pathname is that link's path.
 */
module Navigation {

  /** The link targets, in the order the bar shows them. */
  const NavPaths: seq<string> := ["/", "/about", "/calculation"]

  /** `isActive(path)`: "active" on an exact match of the pathname, "" on
      anything else. */
  function IsActive(pathname: string, path: string): (className: string)
    ensures className == "active" <==> pathname == path
    ensures className != "active" ==> className == ""
  {
    if pathname == path then "active" else ""
  }

  /** The class names the three links get, in order. */
  function LinkClasses(pathname: string): (classes: seq<string>)
    ensures |classes| == |NavPaths|
    ensures forall i :: 0 <= i < |NavPaths| ==> classes[i] == IsActive(pathname, NavPaths[i])
  {
    [IsActive(pathname, NavPaths[0]), IsActive(pathname, NavPaths[1]), IsActive(pathname, NavPaths[2])]
  }

  /** The three paths are distinct, so for any pathname at most one link is
      active. */
  lemma AtMostOneActive(pathname: string, i: nat, j: nat)
    requires i < |NavPaths| && j < |NavPaths|
    requires LinkClasses(pathname)[i] == "active" && LinkClasses(pathname)[j] == "active"
    ensures i == j
  {
    assert NavPaths[i] == pathname == NavPaths[j];
  }

  /** On one of the three paths exactly that link is active. */
  lemma ExactlyTheMatchingLink(i: nat)
    requires i < |NavPaths|
    ensures forall j :: 0 <= j < |NavPaths| ==> (LinkClasses(NavPaths[i])[j] == "active" <==> j == i)
  {
    forall j | 0 <= j < |NavPaths|
      ensures LinkClasses(NavPaths[i])[j] == "active" <==> j == i
    {
      if j != i && LinkClasses(NavPaths[i])[j] == "active" {
        AtMostOneActive(NavPaths[i], i, j);
      }
    }
  }

  /** Matching is exact: any other pathname, "/about/" or "/addition" among
      them, activates no link. */
  lemma NoLinkOffThePaths(pathname: string)
    requires pathname !in NavPaths
    ensures forall j :: 0 <= j < |NavPaths| ==> LinkClasses(pathname)[j] == ""
  {
  }

  lemma NearMissesActivateNothing()
    ensures LinkClasses("/about/") == ["", "", ""]
    ensures LinkClasses("/addition") == ["", "", ""]
  {
    NoLinkOffThePaths("/about/");
    NoLinkOffThePaths("/addition");
  }
}

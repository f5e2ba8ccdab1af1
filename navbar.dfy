/** The navigation bar: three links, one of which is highlighted when it is
    the current path, and click handlers that assign the fragment only when
    it differs from the link's target. */
module Navbar {
  import Browser

  const HomeHref := "#"
  const SavedHref := "#/saved"
  const ConverterHref := "#/converter"

  /** The links in display order. */
  const Links: seq<string> := [HomeHref, SavedHref, ConverterHref]

  /** `NavLink`'s highlight test: a link is highlighted on its own target
      and nowhere else. */
  predicate IsActive(href: string, currentPath: string): (b: bool)
    ensures b <==> currentPath == href
  {
    href == currentPath
  }

  /** How many of the links in `links` are highlighted on `currentPath`. */
  function ActiveCount(links: seq<string>, currentPath: string): (n: nat)
    ensures n <= |links|
    ensures n == 0 <==> forall i :: 0 <= i < |links| ==> !IsActive(links[i], currentPath)
  {
    if links == [] then 0
    else ActiveCount(links[..|links| - 1], currentPath)
         + (if IsActive(links[|links| - 1], currentPath) then 1 else 0)
  }

  /** On one of the three link targets exactly one link is highlighted; on any
      other path (the itinerary view, an unknown token) none is. */
  lemma OneActiveLink(currentPath: string)
    ensures ActiveCount(Links, currentPath) == if currentPath in Links then 1 else 0
  {
    assert Links[..2] == [HomeHref, SavedHref] && Links[..2][..1] == [HomeHref];
    assert [HomeHref][..0] == [];
  }

  lemma ItineraryPathHasNoActiveLink()
    ensures ActiveCount(Links, "#/itinerary") == 0
  {
    OneActiveLink("#/itinerary");
  }

  /** `NavLink`'s `handleClick`; `wrote` says whether the fragment was
      written, which is what makes the browser fire `hashchange`. */
  method HandleClick(location: Browser.Location, href: string) returns (wrote: bool)
    modifies location
    ensures wrote == (old(location.hash) != href)
    ensures location.hash == href
  {
    wrote := false;
    if location.hash != href {
      location.hash := href;
      wrote := true;
    }
  }

  /** `handleLogoClick`: the logo is a link to the planner. */
  method HandleLogoClick(location: Browser.Location) returns (wrote: bool)
    modifies location
    ensures wrote == (old(location.hash) != HomeHref)
    ensures location.hash == HomeHref
  {
    wrote := HandleClick(location, HomeHref);
  }
}

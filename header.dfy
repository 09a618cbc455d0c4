/** The site header: navigation labels fetched per language with an English
    and a built-in fallback, a scroll-dependent style and a mobile menu. */
module Header {
  import opened Js

  /** The labels used when nothing better is known, in tab order. */
  const DefaultTabs: seq<string> := ["Home", "Treatments", "Doctors", "Hospitals", "About", "Log In"]

  /** The label of last resort. */
  const LastResort: string := "Menu"

  /** The header shows six links, numbered 0 to 5. */
  const LinkCount: nat := 6

  /** The page is taken as scrolled beyond this many pixels. */
  const ScrollThreshold: real := 40.0

  /** One answer of `/api/headings/navbar/<lang>`: its `success` flag and
      `data.detailPage.navbar`, or an error thrown on the way (the request
      rejected, the body not JSON, or `data.detailPage` missing). */
  datatype NavAnswer = Answer(success: bool, navbar: seq<string>) | Thrown

  /** `getNavTitle(index)`: the fetched label when it is a non-empty string,
      else the built-in label for that position, else `'Menu'`. */
  function NavTitle(tabs: seq<string>, index: int): (r: string)
    ensures Truthy(r)
    ensures 0 <= index < |tabs| && Truthy(tabs[index]) ==> r == tabs[index]
    ensures !(0 <= index < |tabs| && Truthy(tabs[index])) ==>
      r == (if 0 <= index < |DefaultTabs| then DefaultTabs[index] else LastResort)
  {
    if 0 <= index < |tabs| && Truthy(tabs[index]) then tabs[index]
    else if 0 <= index < |DefaultTabs| then DefaultTabs[index]
    else LastResort
  }

  /** The six link labels, as both the desktop and the mobile menu show them. */
  function LinkLabels(tabs: seq<string>): (r: seq<string>)
    ensures |r| == LinkCount
    ensures forall i :: 0 <= i < LinkCount ==> r[i] == NavTitle(tabs, i)
    ensures forall i :: 0 <= i < LinkCount ==> Truthy(r[i])
    ensures tabs == [] ==> r == DefaultTabs
    ensures forall i :: 0 <= i < LinkCount && i < |tabs| && Truthy(tabs[i]) ==> r[i] == tabs[i]
  {
    seq(LinkCount, i requires 0 <= i < LinkCount => NavTitle(tabs, i))
  }

  /** The tabs `fetchNavbarTitles` settles on: the requested language's
      labels when that answer succeeds; after an unsuccessful answer, the
      English labels when that answer succeeds; the built-in labels in every
      other case, an error included. */
  function ResolveNavbar(primary: NavAnswer, fallback: NavAnswer): (r: seq<string>)
    ensures primary.Answer? && primary.success ==> r == primary.navbar
    ensures primary.Thrown? ==> r == DefaultTabs
    ensures primary.Answer? && !primary.success ==>
      r == (if fallback.Answer? && fallback.success then fallback.navbar else DefaultTabs)
    ensures r == DefaultTabs || (primary.Answer? && r == primary.navbar) ||
      (fallback.Answer? && r == fallback.navbar)
  {
    match primary
    case Thrown => DefaultTabs
    case Answer(success, navbar) =>
      if success then navbar
      else
        match fallback
        case Thrown => DefaultTabs
        case Answer(fallbackSuccess, fallbackNavbar) =>
          if fallbackSuccess then fallbackNavbar else DefaultTabs
  }

  /** The English answer only matters after an unsuccessful answer for the
      requested language: otherwise no English request is made. */
  lemma FallbackOnlyAfterFailure(primary: NavAnswer, fallback1: NavAnswer, fallback2: NavAnswer)
    requires !(primary.Answer? && !primary.success)
    ensures ResolveNavbar(primary, fallback1) == ResolveNavbar(primary, fallback2)
  {
  }

  /** Whatever the answers, every link shows a non-empty label. */
  lemma ResolvedLabelsNonEmpty(primary: NavAnswer, fallback: NavAnswer, i: nat)
    requires i < LinkCount
    ensures Truthy(LinkLabels(ResolveNavbar(primary, fallback))[i])
  {
  }

  /** The header's state. */
  class HeaderState {
    var scrolled: bool
    var open: bool
    var navbarTabs: seq<string>

    constructor ()
      ensures !scrolled && !open && navbarTabs == []
    {
      scrolled := false;
      open := false;
      navbarTabs := [];
    }

    /** The scroll listener: `scrolled` records whether the page is more
        than 40 pixels down. */
    method OnScroll(scrollY: real)
      modifies this`scrolled
      ensures scrolled <==> scrollY > ScrollThreshold
    {
      scrolled := scrollY > ScrollThreshold;
    }

    /** The menu button. */
    method ToggleMenu()
      modifies this`open
      ensures open == !old(open)
    {
      open := !open;
    }

    /** A click on any link of the mobile menu. */
    method CloseMenu()
      modifies this`open
      ensures !open
    {
      open := false;
    }

    /** The navbar effect for `language`, given the answer for that language
        and the one the English fallback request would get. Nothing is
        requested when the language is falsy; `requested` lists the
        languages asked for, in order. */
    method FetchNavbarTitles(language: string, primary: NavAnswer, fallback: NavAnswer)
      returns (requested: seq<string>)
      modifies this`navbarTabs
      ensures !Truthy(language) ==> requested == [] && navbarTabs == old(navbarTabs)
      ensures Truthy(language) ==> navbarTabs == ResolveNavbar(primary, fallback)
      ensures Truthy(language) ==>
        requested == [language] + (if primary.Answer? && !primary.success then ["EN"] else [])
    {
      if !Truthy(language) {
        return [];
      }
      requested := [language];
      match primary {
        case Thrown =>
          navbarTabs := DefaultTabs;
        case Answer(success, navbar) =>
          if success {
            navbarTabs := navbar;
          } else {
            requested := requested + ["EN"];
            match fallback {
              case Thrown =>
                navbarTabs := DefaultTabs;
              case Answer(fallbackSuccess, fallbackNavbar) =>
                if fallbackSuccess {
                  navbarTabs := fallbackNavbar;
                } else {
                  navbarTabs := DefaultTabs;
                }
            }
          }
      }
    }
  }
}

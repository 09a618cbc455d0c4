/** A section heading: the heading bundle of one section in the selected
    language, of which the page type picks one variant, rendered as a home
    block, a page block or a row of detail-page tabs. */
module SectionHeading {
  import opened Js

  /** One heading variant. */
  datatype Heading = Heading(heading: string, subheading: string, description: string)

  /** The detail-page part of a bundle: tab labels and headings. */
  datatype DetailPage = DetailPage(navbar: seq<string>, headings: seq<Heading>)

  /** `data` of `/api/headings/<section>/<lang>`: one list of variants per
      page type. */
  datatype Bundle = Bundle(home: seq<Heading>, page: seq<Heading>, detailPage: DetailPage)

  /** An answer: its `success` flag and its data, or a request that threw
      (there is no `catch`: the state is simply not updated). */
  datatype HeadingsAnswer = Answer(success: bool, data: Bundle) | Thrown

  const HomePage: string := "home"
  const PlainPage: string := "page"
  const DetailPageType: string := "detailPage"
  const NavDetail: string := "nav"

  /** The state before any answer arrives. */
  const InitialHeading: Heading := Heading("Not Available For Selected Language", "", "")
  const InitialTabs: seq<string> := ["Not found for the selected language"]

  /** `list[0]`: `undefined` (None) for an empty list. */
  function First(list: seq<Heading>): (r: Option<Heading>)
    ensures r.Some? <==> |list| > 0
    ensures r.Some? ==> r.value == list[0]
  {
    if |list| > 0 then Some(list[0]) else None
  }

  /** The component's two pieces of state: the tab labels and the headings
      (which become `undefined` when the chosen variant list is empty). */
  datatype State = State(tabs: seq<string>, headings: Option<Heading>)

  /** What `fetchHeadings` leaves behind, from the state before it. */
  function AfterFetch(language: string, page: string, answer: HeadingsAnswer, before: State): (after: State)
    ensures !Truthy(language) || answer.Thrown? || !answer.success ==> after == before
    ensures page != HomePage && page != PlainPage && page != DetailPageType ==> after == before
    ensures page != DetailPageType ==> after.tabs == before.tabs
    ensures Truthy(language) && answer.Answer? && answer.success ==>
      (page == HomePage ==> after.headings == First(answer.data.home)) &&
      (page == PlainPage ==> after.headings == First(answer.data.page)) &&
      (page == DetailPageType ==>
        after.tabs == answer.data.detailPage.navbar &&
        after.headings == First(answer.data.detailPage.headings))
  {
    if !Truthy(language) then before
    else match answer
      case Thrown => before
      case Answer(success, data) =>
        if !success then before
        else if page == HomePage then before.(headings := First(data.home))
        else if page == PlainPage then before.(headings := First(data.page))
        else if page == DetailPageType then
          State(data.detailPage.navbar, First(data.detailPage.headings))
        else before
  }

  /** A detail-page tab button: its caption, whether it is highlighted and the
      index a click hands to `setActiveTab`. */
  datatype TabButton = TabButton(caption: string, highlighted: bool, selects: nat)

  /** What the component renders. `Crash` is a render that reads a field of
      `undefined` headings and throws. */
  datatype Rendered =
    | HomeBlock(heading: string, subheading: Option<string>, description: Option<string>)
    | PageBlock(title: string, text: string)
    | TabBar(buttons: seq<TabButton>)
    | Nothing
    | Crash

  function TabButtons(tabs: seq<string>, activeTab: Option<int>): (r: seq<TabButton>)
    ensures |r| == |tabs|
    ensures forall i :: 0 <= i < |r| ==>
      r[i].caption == tabs[i] && r[i].selects == i && (r[i].highlighted <==> activeTab == Some(i))
  {
    seq(|tabs|, i requires 0 <= i < |tabs| => TabButton(tabs[i], activeTab == Some(i), i))
  }

  /** The render branch on `page` and `detail`. In home mode the subheading
      and the description appear only when non-empty; the page block reads
      the heading through `?.` but the description directly. */
  function Render(page: string, detail: string, state: State, activeTab: Option<int>): (r: Rendered)
    ensures page == HomePage ==>
      if state.headings.None? then r.Crash? else
        r.HomeBlock? && r.heading == state.headings.value.heading &&
        r.subheading == (if Truthy(state.headings.value.subheading) then Some(state.headings.value.subheading) else None) &&
        r.description == (if Truthy(state.headings.value.description) then Some(state.headings.value.description) else None)
    ensures page == PlainPage ==>
      if state.headings.None? then r.Crash? else
        r == PageBlock(state.headings.value.heading, state.headings.value.description)
    ensures page == DetailPageType && detail == NavDetail ==>
      r.TabBar? && |r.buttons| == |state.tabs|
    ensures r.TabBar? ==> page == DetailPageType && detail == NavDetail
    ensures r.TabBar? ==> r.buttons == TabButtons(state.tabs, activeTab)
    ensures page != HomePage && page != PlainPage && !(page == DetailPageType && detail == NavDetail) ==>
      r == Nothing
  {
    if page == HomePage then
      match state.headings
      case None => Crash
      case Some(h) =>
        HomeBlock(h.heading,
                  if Truthy(h.subheading) then Some(h.subheading) else None,
                  if Truthy(h.description) then Some(h.description) else None)
    else if page == PlainPage then
      match state.headings
      case None => Crash
      case Some(h) => PageBlock(h.heading, h.description)
    else if page == DetailPageType && detail == NavDetail then
      TabBar(TabButtons(state.tabs, activeTab))
    else Nothing
  }

  /** At most one tab is highlighted, and exactly the one at `activeTab`
      when that index is in range. */
  lemma OneHighlightedTab(tabs: seq<string>, activeTab: Option<int>, i: nat, j: nat)
    requires i < |tabs| && j < |tabs|
    ensures var bs := TabButtons(tabs, activeTab);
      (bs[i].highlighted && bs[j].highlighted ==> i == j) &&
      (activeTab == Some(i) <==> bs[i].highlighted)
  {
  }

  /** A successful answer whose chosen variant list is empty leaves the
      headings `undefined`, and the next home or page render throws. */
  lemma EmptyVariantCrashes(language: string, answer: HeadingsAnswer, before: State, page: string, detail: string, activeTab: Option<int>)
    requires Truthy(language) && answer.Answer? && answer.success
    requires (page == HomePage && answer.data.home == []) || (page == PlainPage && answer.data.page == [])
    ensures Render(page, detail, AfterFetch(language, page, answer, before), activeTab) == Crash
  {
  }

  /** The component's state, updated in place by the effect. */
  class HeadingState {
    var navbarTabs: seq<string>
    var headings: Option<Heading>

    constructor ()
      ensures navbarTabs == InitialTabs && headings == Some(InitialHeading)
    {
      navbarTabs := InitialTabs;
      headings := Some(InitialHeading);
    }

    /** The effect: skipped for a falsy language; on a successful answer the
        variant chosen by `page` is stored, and for a detail page its tabs. */
    method FetchHeadings(language: string, page: string, answer: HeadingsAnswer)
      modifies this
      ensures State(navbarTabs, headings) ==
        AfterFetch(language, page, answer, State(old(navbarTabs), old(headings)))
    {
      if !Truthy(language) {
        return;
      }
      match answer {
        case Thrown =>
        case Answer(success, data) =>
          if success {
            if page == HomePage {
              headings := First(data.home);
            } else if page == PlainPage {
              headings := First(data.page);
            } else if page == DetailPageType {
              navbarTabs := data.detailPage.navbar;
              headings := First(data.detailPage.headings);
            }
          }
      }
    }
  }
}

/** The hospital carousel: hospitals fetched for the selected language,
    grouped by country into tabs, one country's hospitals shown at a time. */
module HospitalCarousel {
  import opened Js
  import opened Directory

  /** What `fetchHospitals` does with one answer from `/api/hospitals/all`. */
  function HospitalsFetch(response: Response, language: string): (o: FetchOutcome)
    ensures o.Replace? ==> |o.list| > 0 && SingleLanguage(o.list)
    ensures o.Replace? <==>
      (response.Response? && response.ok && response.body.Json? &&
       response.body.success && Normalise(response.body.data, language) != [])
    ensures o.Replace? ==> o.list == Normalise(response.body.data, language)
    ensures o.Keep? <==>
      (response.Response? && response.ok && response.body.Json? &&
       (!response.body.success || Normalise(response.body.data, language) == []))
    ensures response.Rejected? ==> o == Fail(response.message)
    ensures response.Response? && !response.ok ==> o == Fail(HttpErrorMessage(response.status))
    ensures response.Response? && response.ok && response.body.Malformed? ==> o == Fail(response.body.message)
  {
    match response
    case Rejected(message) => Fail(message)
    case Response(ok, status, body) =>
      if !ok then Fail(HttpErrorMessage(status))
      else match body
        case Malformed(message) => Fail(message)
        case Json(success, data) =>
          if !success then Keep
          else
            NormaliseSingleLanguage(data, language);
            var list := Normalise(data, language);
            if |list| > 0 then Replace(list) else Keep
  }

  /** `Object.keys(countryGroups)`: the distinct countries, in the order in
      which the reduce first met them. */
  function CountryNames(hs: seq<Entry>): (r: seq<string>)
    ensures NoDuplicates(r)
    decreases |hs|
  {
    if hs == [] then []
    else
      var names := CountryNames(hs[..|hs| - 1]);
      var c := hs[|hs| - 1].country;
      if c in names then names else names + [c]
  }

  /** A country is listed exactly when some hospital has it. */
  lemma {:induction false} CountryNamesMembers(hs: seq<Entry>, c: string)
    ensures c in CountryNames(hs) <==> exists k :: 0 <= k < |hs| && hs[k].country == c
    decreases |hs|
  {
    if hs != [] {
      var init := hs[..|hs| - 1];
      CountryNamesMembers(init, c);
      if c in CountryNames(init) {
        var k :| 0 <= k < |init| && init[k].country == c;
        assert hs[k].country == c;
      }
      if exists k :: 0 <= k < |hs| && hs[k].country == c {
        var k :| 0 <= k < |hs| && hs[k].country == c;
        if k < |init| {
          assert init[k].country == c;
        }
      }
    }
  }

  /** `countryGroups[c]`: the hospitals of country `c`, in list order. */
  function GroupOf(hs: seq<Entry>, c: string): (r: seq<Entry>)
    ensures |r| <= |hs|
    ensures forall k :: 0 <= k < |r| ==> r[k].country == c
    decreases |hs|
  {
    if hs == [] then []
    else
      var last := hs[|hs| - 1];
      GroupOf(hs[..|hs| - 1], c) + (if last.country == c then [last] else [])
  }

  /** Grouping works hospital by hospital, so each group keeps the relative
      order its hospitals had in the list. */
  lemma {:induction false} GroupOfAppend(a: seq<Entry>, b: seq<Entry>, c: string)
    ensures GroupOf(a + b, c) == GroupOf(a, c) + GroupOf(b, c)
    decreases |b|
  {
    if b == [] {
      assert a + b == a;
    } else {
      var b' := b[..|b| - 1];
      assert (a + b)[..|a + b| - 1] == a + b';
      GroupOfAppend(a, b', c);
    }
  }

  /** The groups listed in `names` order, concatenated. */
  function AllGroups(hs: seq<Entry>, names: seq<string>): seq<Entry>
    decreases |names|
  {
    if names == [] then []
    else AllGroups(hs, names[..|names| - 1]) + GroupOf(hs, names[|names| - 1])
  }

  /** Adding one hospital adds it to exactly one of the listed groups: the
      one of its country, if that country is listed. */
  lemma {:induction false} AllGroupsSnoc(hs: seq<Entry>, h: Entry, names: seq<string>)
    requires NoDuplicates(names)
    ensures multiset(AllGroups(hs + [h], names)) ==
      multiset(AllGroups(hs, names)) + (if h.country in names then multiset{h} else multiset{})
    decreases |names|
  {
    if names != [] {
      var init := names[..|names| - 1];
      var c := names[|names| - 1];
      assert (hs + [h])[..|hs + [h]| - 1] == hs;
      AllGroupsSnoc(hs, h, init);
      assert h.country in names <==> h.country in init || h.country == c;
      assert c !in init;
    }
  }

  /** A country that no hospital has has an empty group. */
  lemma GroupOfAbsent(hs: seq<Entry>, c: string)
    requires c !in CountryNames(hs)
    ensures GroupOf(hs, c) == []
  {
  }

  /** The groups partition the list: together they hold every hospital
      exactly as often as the list does (a permutation of it). */
  lemma {:induction false} GroupsPartition(hs: seq<Entry>)
    ensures multiset(AllGroups(hs, CountryNames(hs))) == multiset(hs)
    ensures |AllGroups(hs, CountryNames(hs))| == |hs|
    decreases |hs|
  {
    if hs != [] {
      var init := hs[..|hs| - 1];
      var h := hs[|hs| - 1];
      assert hs == init + [h];
      var names := CountryNames(init);
      GroupsPartition(init);
      AllGroupsSnoc(init, h, names);
      if h.country !in names {
        var names' := names + [h.country];
        assert names'[..|names'| - 1] == names;
        GroupOfAbsent(init, h.country);
        assert GroupOf(hs, h.country) == [h];
      }
    }
    assert |multiset(AllGroups(hs, CountryNames(hs)))| == |multiset(hs)|;
  }

  /** A hospital lies in the group of its own country and in no other. */
  lemma {:induction false} GroupOfMembers(hs: seq<Entry>, k: nat, c: string)
    requires k < |hs|
    ensures hs[k] in GroupOf(hs, c) <==> hs[k].country == c
    decreases |hs|
  {
    var init := hs[..|hs| - 1];
    if k < |init| {
      assert hs[k] == init[k];
      GroupOfMembers(init, k, c);
    }
  }

  /** A country that is listed has at least one hospital. */
  lemma ListedGroupNonEmpty(hs: seq<Entry>, c: string)
    requires c in CountryNames(hs)
    ensures |GroupOf(hs, c)| > 0
  {
    CountryNamesMembers(hs, c);
    var k :| 0 <= k < |hs| && hs[k].country == c;
    GroupOfMembers(hs, k, c);
  }

  /** The countries a prefix of the list names come first, in the same order. */
  lemma {:induction false} CountryNamesPrefix(hs: seq<Entry>, i: nat)
    requires i <= |hs|
    ensures CountryNames(hs[..i]) <= CountryNames(hs)
    decreases |hs| - i
  {
    if i < |hs| {
      CountryNamesPrefix(hs, i + 1);
      assert hs[..i + 1][..i] == hs[..i];
    } else {
      assert hs[..i] == hs;
    }
  }

  /** First-appearance order: a country already met in `hs[..j]` is listed
      before a country that is first met at position `j` or later. */
  lemma FirstAppearanceOrder(hs: seq<Entry>, j: nat, a: string, b: string)
    requires j <= |hs|
    requires a in CountryNames(hs[..j])
    requires b in CountryNames(hs) && b !in CountryNames(hs[..j])
    ensures forall k, m ::
      (0 <= k < |CountryNames(hs)| && 0 <= m < |CountryNames(hs)| &&
       CountryNames(hs)[k] == a && CountryNames(hs)[m] == b) ==> k < m
  {
    CountryNamesPrefix(hs, j);
    var p := CountryNames(hs[..j]);
    var all := CountryNames(hs);
    forall k, m | 0 <= k < |all| && 0 <= m < |all| && all[k] == a && all[m] == b
      ensures k < m
    {
      var k0 :| 0 <= k0 < |p| && p[k0] == a;
      assert all[k0] == a;
      assert k == k0;
    }
  }

  /** The `reduce` that groups hospitals by country: walk the hospitals once, creating a group
      the first time a country is met and pushing each hospital onto its
      country's group. `names` is the key order `Object.keys` reports. */
  method GroupByCountry(hospitals: seq<Entry>) returns (names: seq<string>, groups: map<string, seq<Entry>>)
    ensures names == CountryNames(hospitals)
    ensures forall c :: c in groups <==> c in names
    ensures forall c :: c in groups ==> groups[c] == GroupOf(hospitals, c)
  {
    names, groups := [], map[];
    var i := 0;
    while i < |hospitals|
      invariant 0 <= i <= |hospitals|
      invariant names == CountryNames(hospitals[..i])
      invariant forall c :: c in groups <==> c in names
      invariant forall c :: c in groups ==> groups[c] == GroupOf(hospitals[..i], c)
    {
      var h := hospitals[i];
      ghost var seen := hospitals[..i];
      assert hospitals[..i + 1] == seen + [h];
      SnocUnfold(seen, h);
      if h.country !in groups {
        GroupOfAbsent(seen, h.country);
        groups := groups[h.country := []];
        names := names + [h.country];
      }
      groups := groups[h.country := groups[h.country] + [h]];
      i := i + 1;
    }
    assert hospitals[..i] == hospitals;
  }

  /** One reduce step, seen from the specification functions. */
  lemma SnocUnfold(hs: seq<Entry>, h: Entry)
    ensures CountryNames(hs + [h]) ==
      if h.country in CountryNames(hs) then CountryNames(hs) else CountryNames(hs) + [h.country]
    ensures forall c :: GroupOf(hs + [h], c) == GroupOf(hs, c) + (if h.country == c then [h] else [])
  {
    assert (hs + [h])[..|hs + [h]| - 1] == hs;
  }

  /** `countryGroups[countryNames[index]] || []`. */
  function CurrentGroup(hs: seq<Entry>, index: nat): (r: seq<Entry>)
    ensures index < |CountryNames(hs)| ==> r == GroupOf(hs, CountryNames(hs)[index])
    ensures index < |CountryNames(hs)| ==>
      |r| > 0 && forall k :: 0 <= k < |r| ==> r[k].country == CountryNames(hs)[index]
    ensures index >= |CountryNames(hs)| ==> r == []
  {
    var names := CountryNames(hs);
    if index < |names| then
      ListedGroupNonEmpty(hs, names[index]);
      GroupOf(hs, names[index])
    else []
  }

  /** One country tab: its label and whether it is highlighted. */
  datatype Tab = Tab(country: string, active: bool)

  /** What the component renders. */
  datatype View =
    | Spinner
    | ErrorPanel(message: string)
    | NoHospitals
    | Cards(tabs: seq<Tab>, shown: seq<Entry>)

  function Tabs(names: seq<string>, index: nat): (r: seq<Tab>)
    ensures |r| == |names|
    ensures forall k :: 0 <= k < |r| ==> r[k].country == names[k] && (r[k].active <==> k == index)
  {
    seq(|names|, k requires 0 <= k < |names| => Tab(names[k], k == index))
  }

  /** The render: loading first, then a truthy error, then the empty list,
      then the tabs and the current country's cards. */
  function Render(loading: bool, error: Option<string>, hospitals: seq<Entry>, index: nat): (v: View)
    ensures v.Spinner? <==> loading
    ensures v.ErrorPanel? <==> !loading && TruthyOpt(error)
    ensures v.ErrorPanel? ==> Some(v.message) == error
    ensures v.NoHospitals? <==> !loading && !TruthyOpt(error) && hospitals == []
    ensures v.Cards? ==> |v.tabs| == |CountryNames(hospitals)| > 0
    ensures v.Cards? ==> forall k :: 0 <= k < |v.tabs| ==> v.tabs[k].country == CountryNames(hospitals)[k]
    ensures v.Cards? ==> v.shown == CurrentGroup(hospitals, index)
  {
    if loading then Spinner
    else if TruthyOpt(error) then ErrorPanel(error.value)
    else if |hospitals| == 0 then NoHospitals
    else
      CountryNamesMembers(hospitals, hospitals[0].country);
      Cards(Tabs(CountryNames(hospitals), index), CurrentGroup(hospitals, index))
  }

  /** Exactly one tab is highlighted, the one at `index`, when `index` names
      a country; none is when it is out of range. */
  lemma ExactlyOneActiveTab(loading: bool, error: Option<string>, hospitals: seq<Entry>, index: nat)
    requires Render(loading, error, hospitals, index).Cards?
    ensures var tabs := Render(loading, error, hospitals, index).tabs;
      (index < |tabs| ==> tabs[index].active) &&
      forall k :: 0 <= k < |tabs| && k != index ==> !tabs[k].active
  {
  }

  /** The component's state: the fetched list, the loading flag, the error
      message, the selected country tab and the slide direction. */
  class Carousel {
    var hospitals: seq<Entry>
    var loading: bool
    var error: Option<string>
    var currentCountryIndex: nat
    var direction: int

    /** The carousel never mixes languages, and slides one way or the other. */
    ghost predicate Valid()
      reads this
    {
      SingleLanguage(hospitals) && (direction == 1 || direction == -1)
    }

    constructor ()
      ensures Valid()
      ensures hospitals == [] && loading && error == None
      ensures currentCountryIndex == 0 && direction == 1
    {
      hospitals := [];
      loading := true;
      error := None;
      currentCountryIndex := 0;
      direction := 1;
    }

    /** The effect for `language`: skipped when the language is falsy;
        otherwise one fetch whose outcome updates the list and the error,
        and `loading` is cleared whatever happened. */
    method FetchHospitals(language: string, response: Response)
      requires Valid()
      modifies this`hospitals, this`loading, this`error
      ensures Valid()
      ensures !Truthy(language) ==>
        hospitals == old(hospitals) && loading == old(loading) && error == old(error)
      ensures Truthy(language) ==> !loading
      ensures Truthy(language) ==>
        match HospitalsFetch(response, language)
        case Keep => hospitals == old(hospitals) && error == old(error)
        case Replace(list) => hospitals == list && error == None
        case Fail(message) => hospitals == [] && error == Some(message)
    {
      if !Truthy(language) {
        return;
      }
      var outcome := HospitalsFetch(response, language);
      match outcome {
        case Keep =>
        case Replace(list) =>
          hospitals := list;
          error := None;
        case Fail(message) =>
          error := Some(message);
          hospitals := [];
      }
      loading := false;
    }

    /** A click on tab `index`: slide forwards when moving right, backwards
        otherwise (also when the tab is already selected). */
    method SelectCountry(index: nat)
      requires Valid()
      modifies this`currentCountryIndex, this`direction
      ensures Valid()
      ensures currentCountryIndex == index
      ensures direction == (if index > old(currentCountryIndex) then 1 else -1)
    {
      direction := if index > currentCountryIndex then 1 else -1;
      currentCountryIndex := index;
    }
  }
}

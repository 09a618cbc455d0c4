/** The services grid: treatments fetched for the selected language, at most
    nine of them shown. */
module Services {
  import opened Js
  import opened Directory

  /** The most treatments the grid keeps. */
  const Limit: nat := 9

  /** `list.slice(0, 9)`. */
  function FirstNine(list: seq<Entry>): (r: seq<Entry>)
    ensures r <= list
    ensures |r| == if |list| < Limit then |list| else Limit
  {
    if |list| <= Limit then list else list[..Limit]
  }

  /** What `fetchServices` does with one answer from `/api/treatments/all`.
      Unlike the carousel it does not look at `response.ok`: any response
      whose body parses is used. */
  function ServicesFetch(response: Response, language: string): (o: FetchOutcome)
    ensures o.Replace? ==> 0 < |o.list| <= Limit && SingleLanguage(o.list)
    ensures o.Replace? ==>
      (response.Response? && response.body.Json? && response.body.success &&
       o.list <= Normalise(response.body.data, language))
    ensures o.Keep? <==>
      (response.Response? && response.body.Json? &&
       (!response.body.success || Normalise(response.body.data, language) == []))
    ensures response.Rejected? ==> o == Fail(response.message)
    ensures response.Response? && response.body.Malformed? ==> o == Fail(response.body.message)
    ensures (response.Response? && response.body.Json? && response.body.success &&
             Normalise(response.body.data, language) != []) ==>
      o == Replace(FirstNine(Normalise(response.body.data, language)))
  {
    match response
    case Rejected(message) => Fail(message)
    case Response(_, _, body) =>
      match body
      case Malformed(message) => Fail(message)
      case Json(success, data) =>
        if !success then Keep
        else
          NormaliseSingleLanguage(data, language);
          var filtered := Normalise(data, language);
          var list := if |filtered| > 0 then FirstNine(filtered) else filtered;
          if |list| > 0 then Replace(list) else Keep
  }

  /** A stored list is exactly the first nine treatments of the filtered
      payload, or all of them when there are fewer. */
  lemma ServicesFetchKeepsFirstNine(response: Response, language: string)
    requires ServicesFetch(response, language).Replace?
    ensures var list := ServicesFetch(response, language).list;
      var filtered := Normalise(response.body.data, language);
      list == FirstNine(filtered) &&
      (|filtered| <= Limit ==> list == filtered)
  {
  }

  /** What the component renders. */
  datatype View = Spinner | ErrorPanel(message: string) | Grid(services: seq<Entry>)

  /** The render: loading first, then a truthy error, then the grid. */
  function Render(loading: bool, error: Option<string>, services: seq<Entry>): (v: View)
    ensures v.Spinner? <==> loading
    ensures v.ErrorPanel? <==> !loading && TruthyOpt(error)
    ensures v.ErrorPanel? ==> Some(v.message) == error
    ensures v.Grid? ==> v.services == services
  {
    if loading then Spinner
    else if TruthyOpt(error) then ErrorPanel(error.value)
    else Grid(services)
  }

  /** The component's state. */
  class ServicesGrid {
    var services: seq<Entry>
    var loading: bool
    var error: Option<string>

    /** At most nine treatments, never of mixed languages. */
    ghost predicate Valid()
      reads this
    {
      |services| <= Limit && SingleLanguage(services)
    }

    constructor ()
      ensures Valid()
      ensures services == [] && loading && error == None
    {
      services := [];
      loading := true;
      error := None;
    }

    /** The effect for `language`: skipped when the language is falsy;
        otherwise one fetch; a failure records its message and empties the
        list, a non-empty filtered list replaces it (the error is left as it
        was) and `loading` is cleared whatever happened. */
    method FetchServices(language: string, response: Response)
      requires Valid()
      modifies this
      ensures Valid()
      ensures !Truthy(language) ==>
        services == old(services) && loading == old(loading) && error == old(error)
      ensures Truthy(language) ==> !loading
      ensures Truthy(language) ==>
        match ServicesFetch(response, language)
        case Keep => services == old(services) && error == old(error)
        case Replace(list) => services == list && error == old(error)
        case Fail(message) => services == [] && error == Some(message)
    {
      if !Truthy(language) {
        return;
      }
      var outcome := ServicesFetch(response, language);
      match outcome {
        case Keep =>
        case Replace(list) =>
          services := list;
        case Fail(message) =>
          error := Some(message);
          services := [];
      }
      loading := false;
    }
  }
}

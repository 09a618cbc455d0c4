/** Directory records as the frontend receives them from `/api/hospitals/all`
    and `/api/treatments/all`, and the language filter both the hospital
    carousel and the services grid apply to the payload. */
module Directory {
  import opened Js

  /** A hospital or treatment record, reduced to the fields the frontend
      rules read: its id, its optional language tag and its country. */
  datatype Entry = Entry(id: string, language: Option<string>, country: string)

  /** `result.data`: either an array of records or one record. */
  datatype Payload = Many(items: seq<Entry>) | One(item: Entry)

  /** The body `response.json()` yields: parsed JSON, or a parse failure
      carrying the message of the error it throws. */
  datatype Body = Json(success: bool, data: Payload) | Malformed(message: string)

  /** What `await fetch(...)` yields: a response (its `ok` flag, its HTTP
      status and its body), or a rejection with the error's message. */
  datatype Response = Response(ok: bool, status: nat, body: Body) | Rejected(message: string)

  /** What one fetch does to the component's list: leave it, replace it by a
      non-empty list, or fail with a message (the list is then emptied). */
  datatype FetchOutcome = Keep | Replace(list: seq<Entry>) | Fail(message: string)

  /** `item.language?.toLowerCase() === language?.toLowerCase()` for a
      selected language that is a string: an entry without a tag never matches. */
  predicate LanguageMatches(e: Entry, language: string)
    ensures e.language.None? ==> !LanguageMatches(e, language)
    ensures e.language == Some(language) ==> LanguageMatches(e, language)
    ensures LanguageMatches(e, language) ==> |e.language.value| == |language|
  {
    e.language.Some? && LowerCase(e.language.value) == LowerCase(language)
  }

  /** `items.filter(item => LanguageMatches(item, language))`. */
  function FilterByLanguage(items: seq<Entry>, language: string): (r: seq<Entry>)
    ensures |r| <= |items|
    ensures forall k :: 0 <= k < |r| ==> r[k] in items && LanguageMatches(r[k], language)
    ensures forall k :: 0 <= k < |items| && LanguageMatches(items[k], language) ==> items[k] in r
    decreases |items|
  {
    if items == [] then []
    else if LanguageMatches(items[0], language) then [items[0]] + FilterByLanguage(items[1..], language)
    else FilterByLanguage(items[1..], language)
  }

  /** The filter works entry by entry: filtering a concatenation is
      concatenating the filtered parts, so relative order is kept. */
  lemma {:induction false} FilterAppend(a: seq<Entry>, b: seq<Entry>, language: string)
    ensures FilterByLanguage(a + b, language) == FilterByLanguage(a, language) + FilterByLanguage(b, language)
    decreases |a|
  {
    if a == [] {
      assert a + b == b;
    } else {
      assert (a + b)[1..] == a[1..] + b;
      FilterAppend(a[1..], b, language);
    }
  }

  /** On a single entry the filter keeps it exactly when it matches; with
      `FilterAppend` this pins the filter down: the matching entries, each
      once, in their original order. */
  lemma FilterSingleton(e: Entry, language: string)
    ensures FilterByLanguage([e], language) == if LanguageMatches(e, language) then [e] else []
  {
    assert [e][1..] == [];
  }

  /** The filter ignores the case of the selected language too: selecting
      `"EN"` or `"en"` keeps the same records. */
  lemma {:induction false} FilterIgnoresSelectedCase(items: seq<Entry>, language: string)
    ensures FilterByLanguage(items, LowerCase(language)) == FilterByLanguage(items, language)
    decreases |items|
  {
    LowerCaseIdempotent(language);
    if items != [] {
      FilterIgnoresSelectedCase(items[1..], language);
    }
  }

  /** The list a payload is normalised to: an array is filtered; a single
      record becomes `[record]` when its language matches and `[]` otherwise. */
  function Normalise(data: Payload, language: string): (r: seq<Entry>)
    ensures forall k :: 0 <= k < |r| ==> LanguageMatches(r[k], language)
    ensures data.One? ==> r == FilterByLanguage([data.item], language)
    ensures data.Many? ==> r == FilterByLanguage(data.items, language)
  {
    match data
    case Many(items) => FilterByLanguage(items, language)
    case One(item) => if LanguageMatches(item, language) then [item] else []
  }

  /** Every entry of the list carries a language tag, and all tags are equal
      up to case: the list never mixes languages. */
  ghost predicate SingleLanguage(s: seq<Entry>) {
    forall i, j :: 0 <= i < |s| && 0 <= j < |s| ==>
      s[i].language.Some? && s[j].language.Some? &&
      LowerCase(s[i].language.value) == LowerCase(s[j].language.value)
  }

  lemma NormaliseSingleLanguage(data: Payload, language: string)
    ensures SingleLanguage(Normalise(data, language))
  {
  }

  /** `HTTP error! Status: <status>`: the fixed text followed by the
      status in decimal. */
  function HttpErrorMessage(status: nat): (r: string)
    ensures |r| > |ErrorPrefix| && r[..|ErrorPrefix|] == ErrorPrefix
    ensures r[|ErrorPrefix|..] == NatToString(status)
    ensures DecimalValue(r[|ErrorPrefix|..]) == status
  {
    NatToStringRoundTrip(status);
    var r := ErrorPrefix + NatToString(status);
    assert r[..|ErrorPrefix|] == ErrorPrefix && r[|ErrorPrefix|..] == NatToString(status);
    r
  }

  const ErrorPrefix: string := "HTTP error! Status: "

  predicate IsDigit(c: char) {
    '0' <= c <= '9'
  }

  function DigitChar(d: nat): (c: char)
    requires d < 10
    ensures IsDigit(c) && c as int - '0' as int == d
  {
    (d + '0' as int) as char
  }

  /** Decimal rendering of a natural number, as a template literal prints it:
      digits only, and no leading zero except for 0 itself. */
  function NatToString(n: nat): (r: string)
    ensures |r| > 0
    ensures forall i :: 0 <= i < |r| ==> IsDigit(r[i])
    ensures r[0] == '0' ==> n == 0
    decreases n
  {
    if n < 10 then [DigitChar(n)] else NatToString(n / 10) + [DigitChar(n % 10)]
  }

  /** The number a string of decimal digits denotes (the inverse reading). */
  function DecimalValue(s: string): nat
    decreases |s|
  {
    if s == [] then 0
    else
      var d := s[|s| - 1] as int - '0' as int;
      DecimalValue(s[..|s| - 1]) * 10 + (if 0 <= d < 10 then d else 0)
  }

  /** Reading the rendered digits back gives the number. */
  lemma {:induction false} NatToStringRoundTrip(n: nat)
    ensures DecimalValue(NatToString(n)) == n
    decreases n
  {
    var r := NatToString(n);
    if n < 10 {
      assert r[..|r| - 1] == [];
    } else {
      NatToStringRoundTrip(n / 10);
      assert r[..|r| - 1] == NatToString(n / 10);
    }
  }
}

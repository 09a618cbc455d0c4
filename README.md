# Healthcare directory: verified model of its client rules and database gate

This project is a Dafny model of the logic in a healthcare directory web application. The application has a React frontend and an Express/Mongoose backend. The model covers:

- **Directory language filter** (`Directory`). Hospital and treatment records come from `/api/hospitals/all` and `/api/treatments/all`. The payload is either an array of records or a single record. It is normalised to a list that keeps only the records whose language tag equals the selected language, ignoring case.
- **Hospital carousel** (`HospitalCarousel`). It fetches hospitals and groups them by country, in the order countries first appear. It shows one country tab at a time and chooses the slide direction from the selected tab. The render goes spinner, then error, then "no hospitals", then the cards.
- **Services grid** (`Services`). It applies the same filter and keeps at most the first nine treatments. The render goes spinner, then error, then the grid.
- **Header** (`Header`). Navigation labels resolve through a fallback chain: the requested language, then English, then the built-in labels, then `Menu`. It also has the scroll threshold and the mobile menu toggle.
- **Section heading** (`SectionHeading`). The page type (`home`, `page`, `detailPage`) selects one heading variant from the bundle. Rendering depends on the page type and the `detail` mode.
- **Language registry** (`UseLanguage`). This is module-level state: the current language, a listener list, persisted storage and each mounted hook's state. It supports subscribe, unsubscribe and broadcast. The starting language is the saved value, otherwise the API default, otherwise `EN`.
- **Backend gate** (`Server`). `connectDB` retries at most three times. The request handler connects only when the database is not already connected. The module also covers the health `dbStatus` field and the error handler's message redaction.

How the JavaScript is represented:

- A network answer is a plain value: a response with its `ok` flag, status and parsed body, a body that fails to parse, or a rejected request.
- `undefined` is `Option.None`.
- A JavaScript string is truthy when it is not empty.
- React component state is a Dafny class whose methods update its fields. Each such method is tied to a specification function, and the properties are proved about that function.
- The grouping `reduce` and the `connectDB` retry loop are `while` loops with invariants.
- `SectionHeading` defaults its `page` prop to `home` and its `detail` prop to `nav`. A caller that omits them, as the services grid does, is modelled by passing `HomePage` or `NavDetail` to `Render` and `AfterFetch`.
- The mongoose connection calls are a function `connect: nat -> Attempt`: call number k either connects or throws with a message.

## Model

| member | source | states |
|---|---|---|
| Js.LowerChar | frontend/src/components/HospitalCarousel.jsx:49 | an upper-case ASCII letter becomes its lower-case letter (32 code points on); any other character is left as it is; the result is never upper case |
| Js.LowerCase | frontend/src/components/HospitalCarousel.jsx:49 | `toLowerCase` keeps the length and lower-cases each position independently |
| Js.LowerCaseIdempotent | frontend/src/components/HospitalCarousel.jsx:49 | lower-casing a lower-cased string changes nothing |
| Directory.LanguageMatches | frontend/src/components/HospitalCarousel.jsx:49 | a record matches when its tag, lower-cased, equals the lower-cased selection: a record without a tag never matches, a tag equal to the selection always matches, and a matching tag has the selection's length |
| Directory.FilterByLanguage | frontend/src/components/HospitalCarousel.jsx:47-50 | the result is no longer than the input; every kept record is from the input and matches the language; every matching input record is kept |
| Directory.FilterAppend | frontend/src/components/HospitalCarousel.jsx:47-50 | filtering a concatenation is concatenating the filtered parts, so the relative order of records is kept |
| Directory.FilterSingleton | frontend/src/components/Services.jsx:37-39 | a single record is kept exactly when it matches; together with FilterAppend, the filter keeps exactly the matching records, in order |
| Directory.FilterIgnoresSelectedCase | frontend/src/components/Services.jsx:38 | the selected language is compared case-insensitively too: selecting its lower-cased form keeps exactly the same records |
| Directory.Normalise | frontend/src/components/HospitalCarousel.jsx:46-56 | an array payload is filtered; a single record becomes `[record]` when it matches and `[]` otherwise; every resulting record matches |
| Directory.NormaliseSingleLanguage | frontend/src/components/Services.jsx:35-45 | a normalised list never mixes languages: every record has a tag, and all tags are equal up to case |
| Directory.HttpErrorMessage | frontend/src/components/HospitalCarousel.jsx:41 | the message is the fixed text `HTTP error! Status: ` followed by exactly the decimal rendering of the status (digits only, no leading zero, reading back as the status) |
| Directory.NatToString | frontend/src/components/HospitalCarousel.jsx:41 | the status is printed as decimal digits only, non-empty, with no leading zero except for 0 itself |
| Directory.NatToStringRoundTrip | frontend/src/components/HospitalCarousel.jsx:41 | reading the printed digits back gives the number |
| HospitalCarousel.HospitalsFetch | frontend/src/components/HospitalCarousel.jsx:37-71 | a rejected request, or an ok response whose body fails to parse, fails with the error's own message; a status that is not ok fails with `HTTP error! Status: <status>`; the list is replaced exactly when an ok, successful answer normalises to a non-empty list, and then by that list; an unsuccessful answer or an empty normalised list leaves the list as it is |
| HospitalCarousel.CountryNames | frontend/src/components/HospitalCarousel.jsx:84 | `Object.keys` of the groups lists no country twice |
| HospitalCarousel.CountryNamesMembers | frontend/src/components/HospitalCarousel.jsx:78-84 | a country is listed if and only if some hospital has it |
| HospitalCarousel.CountryNamesPrefix | frontend/src/components/HospitalCarousel.jsx:78-84 | the countries met in a prefix of the list come first in the names, in the same order |
| HospitalCarousel.FirstAppearanceOrder | frontend/src/components/HospitalCarousel.jsx:78-84 | a country met before position j is listed before any country first met at j or later |
| HospitalCarousel.GroupOf | frontend/src/components/HospitalCarousel.jsx:78-82 | a group is no longer than the list, and every member of the group has that country |
| HospitalCarousel.GroupOfAppend | frontend/src/components/HospitalCarousel.jsx:78-82 | grouping works hospital by hospital, so each group keeps the relative order its hospitals had in the list |
| HospitalCarousel.GroupOfMembers | frontend/src/components/HospitalCarousel.jsx:79-80 | a hospital is in the group of its own country and in no other |
| HospitalCarousel.AllGroupsSnoc | frontend/src/components/HospitalCarousel.jsx:79-80 | pushing one hospital adds it to exactly one listed group, the group of its country |
| HospitalCarousel.GroupOfAbsent | frontend/src/components/HospitalCarousel.jsx:79 | a country not yet met has no group (the `acc[country] or []` default starts empty) |
| HospitalCarousel.GroupsPartition | frontend/src/components/HospitalCarousel.jsx:78-84 | the groups, taken in the order of the names, are a permutation of the hospital list, and their sizes add up to its length |
| HospitalCarousel.ListedGroupNonEmpty | frontend/src/components/HospitalCarousel.jsx:78-84 | every listed country has at least one hospital |
| HospitalCarousel.SnocUnfold | frontend/src/components/HospitalCarousel.jsx:79-80 | one reduce step appends a country only when it is new and appends the hospital only to the group of its country |
| HospitalCarousel.GroupByCountry | frontend/src/components/HospitalCarousel.jsx:78-84 | the loop's key order is CountryNames; its keys are exactly the listed countries; each group is GroupOf |
| HospitalCarousel.CurrentGroup | frontend/src/components/HospitalCarousel.jsx:242-243 | for an index that names a country, the shown list is that country's whole group, which is non-empty and holds only that country's hospitals; for any other index it is `[]` |
| HospitalCarousel.Tabs | frontend/src/components/HospitalCarousel.jsx:267-271 | one tab per country, in order; a tab is active exactly when its index is the selected one |
| HospitalCarousel.Render | frontend/src/components/HospitalCarousel.jsx:153-243 | the spinner exactly while loading; then the error panel exactly for a truthy error; then "no hospitals" exactly for an empty list; otherwise one tab per country and the current country's group |
| HospitalCarousel.ExactlyOneActiveTab | frontend/src/components/HospitalCarousel.jsx:267-271 | in the card view the tab at the selected index is the only active one |
| HospitalCarousel.Carousel.constructor | frontend/src/components/HospitalCarousel.jsx:8-86 | starts with an empty list, loading and no error (lines 8-10), tab 0 and direction 1 (lines 85-86) |
| HospitalCarousel.Carousel.FetchHospitals | frontend/src/components/HospitalCarousel.jsx:19-71 | a falsy language changes nothing; otherwise loading ends. A replacement sets the list and clears the error, a failure sets the error and empties the list, and in every other case the state stays as it was. The list never mixes languages |
| HospitalCarousel.Carousel.SelectCountry | frontend/src/components/HospitalCarousel.jsx:88-91 | the index becomes the clicked one; direction is 1 when moving right and -1 otherwise, including a click on the current tab |
| Services.FirstNine | frontend/src/components/Services.jsx:47-49 | `slice(0, 9)` is a prefix of the list, with length min(length, 9) |
| Services.ServicesFetch | frontend/src/components/Services.jsx:26-74 | `response.ok` is not checked. A successful answer whose normalised list is non-empty replaces the list with its first nine records; a replacement never mixes languages and comes only from such an answer. The list is kept exactly for an unsuccessful answer or an empty filtered list. A rejected request or a body that fails to parse fails with its message |
| Services.ServicesFetchKeepsFirstNine | frontend/src/components/Services.jsx:47-55 | the stored list is exactly the first nine filtered records, or all of them when there are nine or fewer |
| Services.Render | frontend/src/components/Services.jsx:91-117 | the spinner exactly while loading; then the error panel exactly for a truthy error; otherwise the grid of the stored services |
| Services.ServicesGrid.constructor | frontend/src/components/Services.jsx:8-11 | starts with no services, loading and no error |
| Services.ServicesGrid.FetchServices | frontend/src/components/Services.jsx:19-74 | a falsy language changes nothing; otherwise loading ends. A replacement sets the list and leaves the error as it was, a failure sets the error and empties the list. At most nine services, in one language |
| Header.NavTitle | frontend/src/components/Header.jsx:53-55 | a fetched label is used when it is non-empty; otherwise the built-in label at that position, otherwise `Menu`; the result is never empty |
| Header.LinkLabels | frontend/src/components/Header.jsx:86-204 | six labels, label i being getNavTitle(i): all non-empty, the six built-in labels when nothing was fetched, and each non-empty fetched label at its position |
| Header.ResolveNavbar | frontend/src/components/Header.jsx:26-46 | a successful answer's navbar is used; after an unsuccessful answer, the English navbar when that answer succeeds and the built-in labels otherwise; any thrown error gives the built-in labels; the result always comes from one of these three sources |
| Header.FallbackOnlyAfterFailure | frontend/src/components/Header.jsx:30-34 | the English answer matters only after an unsuccessful answer for the requested language |
| Header.ResolvedLabelsNonEmpty | frontend/src/components/Header.jsx:23-55 | whatever the answers, every link shows a non-empty label |
| Header.HeaderState.constructor | frontend/src/components/Header.jsx:10-13 | starts not scrolled, with the menu closed and no fetched tabs |
| Header.HeaderState.OnScroll | frontend/src/components/Header.jsx:16 | `scrolled` holds exactly when the page is more than 40 pixels down |
| Header.HeaderState.ToggleMenu | frontend/src/components/Header.jsx:171 | the menu button negates `open` |
| Header.HeaderState.CloseMenu | frontend/src/components/Header.jsx:187-204 | a click on a mobile link closes the menu |
| Header.HeaderState.FetchNavbarTitles | frontend/src/components/Header.jsx:23-47 | a falsy language requests nothing and changes nothing; otherwise the tabs become ResolveNavbar, and English is requested exactly after an unsuccessful answer for the language |
| SectionHeading.First | frontend/src/components/home/SectionHeading.jsx:29 | `list[0]` is defined exactly for a non-empty list and is its first element |
| SectionHeading.AfterFetch | frontend/src/components/home/SectionHeading.jsx:22-37 | a falsy language, a thrown request, an unsuccessful answer or an unknown page type leaves the state unchanged; `home` and `page` store the first variant of their list; `detailPage` stores its navbar and its first heading; only `detailPage` changes the tabs |
| SectionHeading.TabButtons | frontend/src/components/home/SectionHeading.jsx:82-93 | one button per tab, in order; button i shows tab i, selects i, and is highlighted exactly when `activeTab === i` |
| SectionHeading.Render | frontend/src/components/home/SectionHeading.jsx:42-97 | home mode shows the heading, the subheading text only when it is non-empty and the description text only when it is non-empty. Page mode shows the heading and description. Undefined headings throw in both modes. `detailPage` with `nav`, and only that combination, shows the tab bar, whose buttons are TabButtons of the stored tabs. Every other combination renders nothing |
| SectionHeading.OneHighlightedTab | frontend/src/components/home/SectionHeading.jsx:86 | at most one tab is highlighted, and tab i is highlighted exactly when `activeTab` is i |
| SectionHeading.EmptyVariantCrashes | frontend/src/components/home/SectionHeading.jsx:27-31 | a successful answer with an empty variant list leaves the headings undefined, and the next home or page render throws |
| SectionHeading.HeadingState.constructor | frontend/src/components/home/SectionHeading.jsx:10-17 | starts with the placeholder tab and the placeholder heading |
| SectionHeading.HeadingState.FetchHeadings | frontend/src/components/home/SectionHeading.jsx:22-37 | the state afterwards is AfterFetch of the state before |
| UseLanguage.Saved | frontend/src/hooks/useLanguage.jsx:22 | `getItem("language")` is defined exactly when the key is stored, and then it is the stored value |
| UseLanguage.FindDefault | frontend/src/hooks/useLanguage.jsx:40 | `find` returns the first entry marked default, and nothing only when no entry is |
| UseLanguage.Listing | frontend/src/hooks/useLanguage.jsx:35-36 | the available languages are updated exactly for a successful answer whose data is an array |
| UseLanguage.DefaultCode | frontend/src/hooks/useLanguage.jsx:35-45 | the code adopted from the API is that of the first default entry of a usable answer; there is none when the answer is unusable or no entry is default |
| UseLanguage.StartingLanguage | frontend/src/hooks/useLanguage.jsx:9-45 | a saved non-empty preference wins; otherwise the first API default; otherwise `EN` |
| UseLanguage.Without | frontend/src/hooks/useLanguage.jsx:59 | the filter removes exactly that listener and no other |
| UseLanguage.WithoutAppend | frontend/src/hooks/useLanguage.jsx:59 | removal goes listener by listener, so the others keep their order |
| UseLanguage.WithoutAbsent | frontend/src/hooks/useLanguage.jsx:59 | removing an unregistered listener changes nothing |
| UseLanguage.SubscribeThenUnsubscribe | frontend/src/hooks/useLanguage.jsx:55-60 | unsubscribing a newly pushed listener gives back the previous list |
| UseLanguage.WithoutNoDuplicates | frontend/src/hooks/useLanguage.jsx:59 | removal keeps the listeners distinct |
| UseLanguage.LanguageRegistry.constructor | frontend/src/hooks/useLanguage.jsx:5-6 | module load: `EN`, no listeners, no hooks |
| UseLanguage.LanguageRegistry.Mount | frontend/src/hooks/useLanguage.jsx:9-26 | a hook starts at `EN`; a saved non-empty preference becomes its language and the global value; its listener is appended |
| UseLanguage.LanguageRegistry.LanguagesLoaded | frontend/src/hooks/useLanguage.jsx:29-51 | a usable answer sets the available list; when nothing was saved, the first default code becomes the global value, the hook's language and the stored value; other hooks are untouched |
| UseLanguage.LanguageRegistry.ChangeLanguage | frontend/src/hooks/useLanguage.jsx:13-16 | sets and persists the language, then calls every registered listener exactly once, in registration order; every hook then has that language |
| UseLanguage.LanguageRegistry.Unmount | frontend/src/hooks/useLanguage.jsx:58-60 | the hook's listener is filtered out and the listeners stay distinct |
| UseLanguage.LanguageRegistry.MountAndLoad | frontend/src/hooks/useLanguage.jsx:20-56 | after mount and the languages answer, the hook's language is StartingLanguage |
| Server.ConnectDB | backend/server.cjs:46-74 | at most 3 attempts; it returns at the first connect and makes no call after it; it connects exactly when the URI is set and one of the first three calls connects; on total failure there are 3 failures and 2 waits, and the last error is rethrown; a missing URI never calls connect and rethrows its own message |
| Server.Handler | backend/server.cjs:265-277 | connects exactly when the ready state is not 1; a failed connection answers 500 `Database connection failed` / `Please try again later`, and the app never sees that request |
| Server.DbStatus | backend/server.cjs:232-244 | `Connected` exactly for ready state 1, `Disconnected` otherwise |
| Server.NodeEnv | backend/server.cjs:9 | a non-empty `NODE_ENV` is used as it is; an unset or empty one becomes `development`; the result is never empty |
| Server.ErrorReply | backend/server.cjs:257-262 | always 500 `Internal server error`; in production the message is redacted, otherwise it is the error's own message |
| Server.UnsetEnvironmentShowsErrors | backend/server.cjs:257-262 | with no `NODE_ENV` the error handler shows the error's message |

## Left out

- Lower-casing covers ASCII letters only. JavaScript's `toLowerCase` also maps non-ASCII letters.
- Only string language tags are modelled: a record whose tag is present but not a string (a number, say) would make `toLowerCase` throw.
- Payloads other than an array or a record (`null`, a number) are not modelled.
- Header labels are modelled as strings. A fetched navbar item that is not a string is not modelled.
- Object-key ordering: countries are non-numeric strings. `Object.keys` lists integer-like keys first, and that ordering is not modelled.
- Indexing the country list with an out-of-range index yields the key `"undefined"`. A country literally named `"undefined"` would then match, and that corner is not modelled.
- The carousel's own `fetchHeadings` (frontend/src/components/HospitalCarousel.jsx:25-35) and the Services `fetchHeadings`, which only logs, are not modelled.
- The carousel's heading block in each render is not modelled. It is the same markup as SectionHeading's home mode.
- The "Try Again" button (`window.location.reload`), and the reload at the end of `changeLanguage`, are outside the model.
- React's removal of a hook's state on unmount is modelled by dropping the hook from the map.
- Races between parallel fetches, re-render timing, the scroll listener's registration, and the 2-second `setTimeout` are not modelled; waits are counted, not timed.
- Server: the mongoose options, CORS, `dotenv`, route loading, the 404 handler, `SIGINT` handling and `startServer` are not modelled. Connection state other than the ready-state number is not modelled.
- Server.ConnectDB: connection calls are abstract (`connect(k)`), and the network behind them is not modelled.
- Directory.FilterByLanguage: order preservation is stated through Directory.FilterAppend and Directory.FilterSingleton, not as an index-by-index statement.
- Countries named like an `Object.prototype` member (`toString`, `constructor`, `__proto__`) are not modelled. In the grouping `reduce` (frontend/src/components/HospitalCarousel.jsx:79-80) the `acc[country] || []` lookup then finds a non-array and `push` throws. The model treats every country as an ordinary key.
- A successful navbar answer whose `detailPage` has no `navbar` is not modelled. It would set the tabs to `undefined`, and `getNavTitle` would then throw (frontend/src/components/Header.jsx:31, 37, 54). `NavAnswer` always carries a list.
- A `detailPage` heading answer missing `headings` or `navbar` is not modelled. Missing `headings` would set the tabs and then throw before setting the headings, a partial update; missing `navbar` would make `navbarTabs.map` throw (frontend/src/components/home/SectionHeading.jsx:33-34, 82). `Bundle` always carries both fields.
- Hero, Home and PatientLogin are static content or navigation glue and are not part of this model.

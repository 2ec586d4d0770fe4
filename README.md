# Car rental front end: response decoding, listings, bookings pages and session store

A Dafny model of the logic core of a car-rental single-page application
(React and TypeScript). The rest of the application is markup. The model covers:

- **Decoding untyped responses.** The server's `GET /cars` body comes in
  several envelope shapes (a paginated `{success, data: {data: [...]}}`,
  `{data: {cars}}`, `{data: [...]}`, a bare array, or an unknown object).
  The car service's `normalizeCarData` picks a list from it, and so do
  the copies of that logic inside each listing component
  (`cars.dfy`, `listing.dfy`).
- **Record defaulting.** `transformCarData` turns one raw record into
  the `Car` the cards display, with a default for every falsy field
  (`cars.dfy`).
- **Category bucketing.** Each listing section filters differently:
  - CategoryCars: a "regular" catch-all, and otherwise a two-way
    substring match;
  - RegularCars: neither luxury nor popular;
  - Economy: the category contains "luxury";
  - PopularCars: the first six records.

  Each section also has a `fetchCars` effect that sets `cars`, `loading`
  and `error` (`category_cars.dfy`, `regular_cars.dfy`, `economy.dfy`,
  `popular_cars.dfy`).
- **The "My Bookings" panel.** It shows three bookings per page, with a
  pagination bar whose arrows are disabled on the first and last page
  (`dashboard.dfy`).
- **The session store.** `login` and `register` write `auth_token` and
  the serialised `user` into the browser's key/value storage, and
  `logout` removes them. `isAuthenticated`, `getToken`, `getAuthHeader`
  and `getCurrentUser` read the store back (`auth.dfy`). The `user`
  entry is JSON text, so `JSON.stringify`, `JSON.parse` and `String()`
  are modelled as well, with a proved round trip (`json_text.dfy`).

A JavaScript value is the datatype `Json.Json`. An absent property
(`undefined`) is `None` of an `Option<Json>`. Truthiness, `?.`, `||`,
`Array.isArray` and `Object.values` are spelled out in `json.dfy`. Where the
source throws (a property read on `null`, `.toLowerCase()` on a truthy
non-string category, `.filter` on a non-array, `JSON.parse` of bad text), the
model yields `None`, and the catching component takes its error path.

React state that an effect updates is a class: `Listing.View` for a listing
section, `Dashboard.BookingsPanel` for the bookings panel. The browser storage
is the `map<string, string>` field of `Auth.Session`. Server responses, the
clock's year, the `VITE_API_URL` setting and the development-build flag are
parameters.

Two behaviours of the code worth noting:

- `normalizeCarData` returns an empty list, rather than failing, for a
  body of no known shape.
- Booking is not gated on login in the client.

## Model

| member | source | states |
|---|---|---|
| Cars.TransformCar | src/services/cars.ts:76-92 | each field is the raw property when truthy and the fixed default otherwise (`Unknown Model`, the current year, `'0'`, `''`, `Unknown`, 4 seats, 4 doors, `Gasoline`, `Manual`); `id` falls back to `_id`; rate and image fall back to `price` and `image` |
| Cars.Availability | src/services/cars.ts:83 | `true`/`false` become 1/0, any other falsy value becomes 1, any other truthy value is kept |
| Cars.Status | src/services/cars.ts:90 | a present status is kept even when falsy; only an absent one becomes 1 |
| Cars.TransformComplete | src/services/cars.ts:76-92 | whatever the record holds, model, category, rate, seats, doors, fuel type and transmission are truthy, and availability is truthy unless the record said `false` |
| Cars.ZeroAvailabilityShownAvailable | src/services/cars.ts:83 | example: a record with `available: 0` is shown as available (1); only boolean `false` gives 0 |
| Cars.ImageUrl | src/services/cars.ts:52-73 | empty path gives the placeholder; an `http://` or `https://` URL is kept; any other path, `upload/` or not, is the API URL minus its first `/api/v1`, then `/`, then the path |
| Cars.BaseUrl | src/services/cars.ts:62-63 | the API URL (the local default when unset) with its first `/api/v1` removed; used by Cars.ImageUrl |
| Cars.PaginatedCars | src/services/cars.ts:106-107 | a list is found exactly when `success` is exactly `true` and `data.data` is an array, and it is that array |
| Cars.Longest | src/services/cars.ts:117-120 | the result is at least as long as every candidate and is the last of the longest ones (every later candidate is strictly shorter) |
| Cars.Normalize | src/services/cars.ts:94-138 | `normalizeCarData`; no contract of its own, its rules are stated by Cars.NormalizePriority and Cars.NormalizeFallback |
| Cars.NormalizePriority | src/services/cars.ts:94-138 | `normalizeCarData` rule by rule: falsy input gives []; the paginated list wins; then a truthy `data.cars` (its items, or [] when not an array); then an array `data`; then the array itself; a truthy boolean, number or string gives [] |
| Cars.NormalizeFallback | src/services/cars.ts:115-124 | for an object no envelope rule fits, the result is its longest array-valued own property (last among equals), or [] when it has none |
| Cars.CarsFieldBlocksLaterRules | src/services/cars.ts:109-134 | example: a truthy non-array `data.cars` ends normalisation with [] even though `data.data` holds a list |
| Cars.CategoryKey | src/services/cars.ts:38 | the key is computed only for a non-null record; an absent or falsy category gives `""`; a truthy string category gives its lower-cased text; a truthy non-string category throws |
| Cars.ServiceExtract | src/services/cars.ts:22-33 | the service's extraction rules; no contract of its own, proved equal to the components' by Listing.ExtractAgreesWithService |
| Cars.LooseMatch | src/services/cars.ts:39-41 | equal, or either lower-cased string contains the other |
| Cars.MatchesRequest | src/services/cars.ts:36-42 | the service's filter test: the key is readable and loosely matches the request; used by Cars.CarsByCategoryKeeps |
| Cars.CarsByCategory | src/services/cars.ts:17-50 | succeeds exactly when extraction succeeds (otherwise `Invalid data structure received` or a throw at `.filter`) and every record's key can be computed, and never returns more records than extracted |
| Cars.CarsByCategoryKeeps | src/services/cars.ts:36-42 | the service keeps exactly the records whose lower-cased category equals, contains or is contained in the lower-cased request, each once, in order |
| Cars.UncategorisedMatchesAll | src/services/cars.ts:38-41 | a record without a category matches every request (every string contains `""`) |
| Listing.ExtractCars | src/components/CategoryCars.tsx:45-56 | the components' four extraction rules in order: the paginated list first, then a truthy `data.cars`, which must be an array, then an array `data`, then an array body; it throws exactly when no rule applies or `data.cars` is truthy but not an array |
| Listing.ExtractAgreesWithService | src/services/cars.ts:22-33 | the components' extraction and the service's succeed on the same bodies with the same list |
| Listing.ExtractAgreesWithNormalize | src/services/cars.ts:105-114 | where the components' extraction succeeds, `normalizeCarData` yields the same list |
| Listing.TransformAll | src/components/CategoryCars.tsx:77 | `.map(transformCarData)`: same length, element i is the transform of record i |
| Listing.Show | src/components/CategoryCars.tsx:59-77 | the filter-then-map pipeline succeeds exactly when every record's category can be read, and never grows the list |
| Listing.ShowSelects | src/components/CategoryCars.tsx:59-77 | the shown cars are the transforms of exactly the records the test accepts, each once, in their original order |
| Listing.View.constructor | src/components/CategoryCars.tsx:15-17 | a section starts with no cars, loading, and no error |
| Listing.View.Settle | src/components/CategoryCars.tsx:79-85 | success replaces the list and keeps an earlier error; failure keeps the list and sets the error text; loading ends either way |
| CategoryCars.Matches | src/components/CategoryCars.tsx:60-76 | the component's filter test; stated by CategoryCars.RegularRequestRule and CategoryCars.OtherRequestRule |
| CategoryCars.Load | src/components/CategoryCars.tsx:42-79 | the section's list exists exactly when extraction succeeds and every category can be read |
| CategoryCars.FetchCars | src/components/CategoryCars.tsx:39-86 | the effect ends with the loaded list, or with `Failed to load cars` and the old list on a rejected fetch or a throw |
| CategoryCars.RegularRequestRule | src/components/CategoryCars.tsx:64-71 | a "regular" request (any case) accepts a record exactly when its category is none of luxury, popular, premium |
| CategoryCars.OtherRequestRule | src/components/CategoryCars.tsx:73-75 | any other request accepts exactly the records whose category equals, contains or is contained in the request |
| CategoryCars.UncategorisedShownEverywhere | src/components/CategoryCars.tsx:61-75 | a record without a category appears under every request |
| CategoryCars.BucketsOverlap | src/components/CategoryCars.tsx:64-75 | the buckets are not a partition: a "Luxury Sedan" appears under both "regular" and "luxury" |
| CategoryCars.LoadSelects | src/components/CategoryCars.tsx:59-77 | the section shows the transforms of exactly the matching records, in order |
| CategoryCars.Heading | src/components/CategoryCars.tsx:107 | a non-empty title is the heading; otherwise the category with its first letter upper-cased and the rest unchanged |
| CategoryCars.CategoryDescription | src/components/CategoryCars.tsx:25-36 | popular, regular and luxury (in any case) each select their own text; the default text exactly when the lower-cased category is none of them |
| CategoryCars.DescriptionIgnoresCase | src/components/CategoryCars.tsx:25-27 | the description is the same for a category, its lower-cased form and its capitalised heading |
| Text.Capitalize | src/components/CategoryCars.tsx:20-22 | `formatCategoryName`: same length, first character upper-cased, the rest unchanged |
| Text.CapitalizeKeepsLetters | src/components/CategoryCars.tsx:20-22 | capitalising the first letter only changes case, and capitalising twice changes nothing more |
| RegularCars.IsRegular | src/components/RegularCars.tsx:54-61 | the filter test: a readable category that is neither luxury nor popular; used by RegularCars.LoadSelects |
| RegularCars.LoadAsWritten | src/components/RegularCars.tsx:43-46 | the effect as written: an undeclared `setDebugInfo` call throws after extraction |
| RegularCars.AsWrittenNeverShows | src/components/RegularCars.tsx:43-46 | as written the section never shows a list, even for the empty array that the intended code shows as an empty list |
| RegularCars.Load | src/components/RegularCars.tsx:22-73 | intended load: exists exactly when extraction succeeds and every category can be read |
| RegularCars.FetchCars | src/components/RegularCars.tsx:14-81 | intended effect (see Findings): it ends with the loaded list, or with `Failed to load regular cars` and the old list |
| RegularCars.LoadSelects | src/components/RegularCars.tsx:54-70 | shown are the transforms of exactly the records whose category is neither luxury nor popular, in order |
| RegularCars.PremiumDiffersFromCategoryCars | src/components/RegularCars.tsx:55-56 | a "Premium" record is regular here but not under CategoryCars' "regular" request |
| Economy.IsLuxury | src/components/Economy.tsx:40-43 | the filter test as written (equal to or containing "luxury"); stated by Economy.IsLuxuryMeansContains |
| Economy.IsLuxuryMeansContains | src/components/Economy.tsx:40-43 | the test is exactly "the category contains luxury"; an uncategorised record is never luxury |
| Economy.Load | src/components/Economy.tsx:22-44 | the list exists exactly when extraction succeeds and every category can be read |
| Economy.FetchCars | src/components/Economy.tsx:14-55 | the effect ends with the loaded list, or with `Failed to load luxury cars` and the old list |
| Economy.LoadSelects | src/components/Economy.tsx:39-44 | shown are the transforms of exactly the records whose category contains "luxury", in order |
| PopularCars.Source | src/components/PopularCars.tsx:22-28 | the paginated fast path, else `normalizeCarData`; stated by PopularCars.FastPathIsNormalize |
| PopularCars.FastPathIsNormalize | src/components/PopularCars.tsx:22-28 | the paginated fast path picks what `normalizeCarData` would pick anyway |
| PopularCars.Load | src/components/PopularCars.tsx:22-41 | the list is the first min(6, n) records transformed, in order; it fails only when some record is `null` |
| PopularCars.UnknownShapeShowsNothing | src/components/PopularCars.tsx:25-41 | example: a body of unknown shape, or `null`, shows the empty list, not an error |
| PopularCars.FetchCars | src/components/PopularCars.tsx:14-59 | success sets the list; failure sets the error text, except in development builds, where the list becomes the empty mock list and the error is cleared |
| Dashboard.TotalPages | src/components/Dashboard.tsx:500 | the fewest pages of three that hold all bookings; zero only for no bookings |
| Dashboard.PageOf | src/components/Dashboard.tsx:501-503 | the slice of page p; its bounds and size are stated by Dashboard.PageBounds |
| Text.Slice | src/components/Dashboard.tsx:503 | `slice` with clamped positions: the length is the clamped distance, and element i is the element at the clamped start plus i |
| Dashboard.PageBounds | src/components/Dashboard.tsx:500-503 | every existing page holds one to three bookings, those from position `(p-1)*3` up to `p*3` or the end |
| Dashboard.PagesUpToPrefix | src/components/Dashboard.tsx:501-503 | the first k pages laid end to end are the first min(3k, n) bookings |
| Dashboard.PagesPartition | src/components/Dashboard.tsx:500-503 | all pages laid end to end give back the whole list in order: no booking skipped or repeated |
| Dashboard.PageButtons | src/components/Dashboard.tsx:436-448 | one button per page, numbered 1..n, highlighted exactly when it is the current page |
| Dashboard.OneButtonHighlighted | src/components/Dashboard.tsx:436-444 | on an existing page exactly one button is highlighted, the current one |
| Dashboard.PreviousDisabled | src/components/Dashboard.tsx:424-426 | disabled exactly on page 1; used by Dashboard.BookingsPanel.ClickPrevious |
| Dashboard.NextDisabled | src/components/Dashboard.tsx:450-452 | disabled exactly on the last page; used by Dashboard.BookingsPanel.ClickNext |
| Dashboard.PaginationShown | src/components/Dashboard.tsx:554 | the bar is shown only for more than one page |
| Dashboard.StatusLabel | src/components/Dashboard.tsx:33 | the badge is the status with its first letter upper-cased and the rest unchanged |
| Dashboard.BookingsPanel.Shown | src/components/Dashboard.tsx:524-552 | nothing is listed while loading or without bookings; otherwise the current page's bookings, one to three of them |
| Dashboard.BookingsPanel.constructor | src/components/Dashboard.tsx:467-474 | the panel starts with no bookings, loading, on page 1 |
| Dashboard.BookingsPanel.ReceiveBookings | src/components/Dashboard.tsx:476-488 | the mount effect stores the fetched list (nothing on failure) and ends loading, keeping the current page valid |
| Dashboard.BookingsPanel.HandlePageChange | src/components/Dashboard.tsx:505-507 | a page chosen from the bar becomes the current page, which stays a page that exists |
| Dashboard.BookingsPanel.ClickPageButton | src/components/Dashboard.tsx:439 | a numbered button moves to the page it shows |
| Dashboard.BookingsPanel.ClickPrevious | src/components/Dashboard.tsx:424-426 | the previous arrow moves back one page, and does nothing on page 1 |
| Dashboard.BookingsPanel.ClickNext | src/components/Dashboard.tsx:450-452 | the next arrow moves forward one page, and does nothing on the last page |
| JsonText.RoundTrip | src/services/auth.ts:115-121 | `JSON.parse` of what `JSON.stringify` wrote gives back the value, for every value whose objects have distinct keys |
| JsonText.UndefinedIsNotJson | src/services/auth.ts:44 | the text `"undefined"` that an absent user leaves behind does not parse |
| JsonText.BlankIffEmpty | src/services/auth.ts:43 | `String(v)` is empty exactly for `""`, `[]`, and a one-element array holding `null` or such a value |
| Auth.HasToken | src/services/auth.ts:42 | the response's `token` is truthy |
| Auth.FirstErrorText | src/services/auth.ts:53-55 | the first value of `errors`: its first element when an array (none for an empty one), else `String` of it, `"undefined"` when there is no value; stated through Auth.ErrorToast |
| Auth.StoredUser | src/services/auth.ts:44 | `JSON.stringify(user)`, or the text `"undefined"` for an absent user |
| Auth.ErrorToast | src/services/auth.ts:50-58 | the toast is the server `message` if truthy; otherwise the first value of a truthy `errors` (its first element if an array, else `String` of it, `"undefined"` if none); otherwise the fallback text |
| Auth.SignedIn | src/services/auth.ts:42-44 | sign-in stores `String(token)` under `auth_token` and the serialised user under `user`, and keeps every other key |
| Auth.LoggedOut | src/services/auth.ts:105-106 | logout removes exactly `auth_token` and `user` |
| Auth.Token | src/services/auth.ts:127-129 | the token is present exactly when `auth_token` is stored, and is the stored text |
| Auth.IsAuthenticated | src/services/auth.ts:123-125 | a non-empty `auth_token` is stored; tied to the header by Auth.AuthHeader |
| Auth.AuthHeader | src/services/auth.ts:132-135 | the header map is non-empty exactly when the session is authenticated, and is then `Bearer <token>` |
| Auth.CurrentUser | src/services/auth.ts:115-121 | no user exactly when no non-empty `user` text is stored; otherwise the parsed value, or an error where parsing throws |
| Auth.SignedInUser | src/services/auth.ts:44 | after sign-in, the current user reads back as the response's user |
| Auth.SignedInWithoutUser | src/services/auth.ts:44 | a response without a user leaves a `user` entry that cannot be read back |
| Auth.SignedInAuthenticated | src/services/auth.ts:42-43 | after sign-in the session is authenticated exactly when `String(token)` is non-empty, and the header then carries that text |
| Auth.StringTokenSession | src/services/auth.ts:123-135 | a non-empty string token gives an authenticated session, that token, and `Bearer <token>` |
| Auth.EmptyArrayToken | src/services/auth.ts:42-43 | an empty-array token passes the truthiness check but is stored as `""`, so the session is not authenticated |
| Auth.LoggedOutClears | src/services/auth.ts:105-111 | after logout there is no token, no authentication, no header and no user, and every other key is unchanged |
| Auth.SignInThenOut | src/services/auth.ts:105-106 | signing in and then out leaves the store as logging out alone would |
| Auth.FallbackOnlyWithoutDetail | src/services/auth.ts:81-88 | login and register toasts differ exactly when the error has neither a truthy message nor truthy `errors` |
| Auth.FieldErrorShown | src/services/auth.ts:53-55 | for `errors: {field: [text, ...]}` the toast is the first field's first text |
| Auth.Session.SignIn | src/services/auth.ts:33-60 | a response with a token is returned and stored; without one nothing is stored and the fallback is thrown; a rejection stores nothing and throws with the chosen toast |
| Auth.Session.Login | src/services/auth.ts:33-61 | as SignIn, with the login fallback text |
| Auth.Session.Register | src/services/auth.ts:63-91 | as SignIn, with the registration fallback text |
| Auth.Session.Logout | src/services/auth.ts:93-114 | the server is contacted, with the bearer header, only when a truthy token is stored; both keys are removed whether or not that call fails; the toast is `Error during logout` exactly when the call was made and failed, else `Logged out successfully` |

## Left out

- Numbers are integers. Fractions, exponents, `NaN`, infinities and `-0`
  are not modelled. `JSON.parse` of a fraction or exponent fails in the
  model.
- Characters are Unicode scalar values, not UTF-16 code units. `\u`
  escapes that name half of a surrogate pair are refused. Case mapping
  covers ASCII letters only.
- JavaScript lists integer-like keys (such as `"2"`) before other keys
  when it enumerates an object. The model keeps document order.
- HTTP is outside the model. The axios calls, the `api.ts` wrappers,
  `getAllCars` and `getUserBookings` are inputs: `Fetch`,
  `BookingsFetch`, `Post`, and the `serverFails` flag of `Logout`.
- `new Date().getFullYear()`, `import.meta.env.VITE_API_URL` and
  `import.meta.env.DEV` are parameters (`currentYear`, `envApiUrl`, `dev`).
- Not modelled, as presentation: toasts other than the error toast
  argument and the logout text, console logging, and JSX markup. This
  includes the car cards, booking cards, booking details modal, status
  colours and date formatting.
- Dashboard.StatusLabel: takes the status as a string. A booking without
  a string `status` makes `charAt` throw and the panel fail to render;
  that failure is not modelled.
- Auth.CurrentUser: a stored `"null"` parses to `User(Null)`, where
  `getCurrentUser` returns JavaScript `null`, which callers cannot tell
  apart from "no user".
- Cars.ImageUrl: image paths are strings only. A non-string `image_url` is
  not modelled.
- Dashboard.BookingsPanel.ReceiveBookings: only an array response, or a
  failure, is modelled. It requires `loading`, because the mount effect
  runs once.
- The auth modal stores its token under the key `token`, which differs
  from the service's `auth_token`. That component is not part of this
  model, and the two keys are not reconciled.
- The session's read operations (`isAuthenticated`, `getToken`,
  `getAuthHeader`, `getCurrentUser`) are functions of the store. They
  are not methods of `Auth.Session`.
- Concurrent effects are not modelled. An example is a category change
  while a fetch is pending.

## Findings

| source | as written | input that shows it | evidently intended | confidence | as-written member | corrected member |
|---|---|---|---|---|---|---|
| src/components/RegularCars.tsx:43-46 | after extraction the effect calls `setDebugInfo`, which the component never declares, so it throws and the section always shows `Failed to load regular cars` | any body that extracts, e.g. `[]` | no debug call: filter out luxury and popular, then transform and show | high; not executed | RegularCars.AsWrittenNeverShows | RegularCars.LoadSelects |

# PropComfy Explore and sign-in: a Dafny model

PropComfy is a single-page app for short-let apartments in Lagos. This project
models the page logic that decides what a visitor sees and what the app stores:

- **Explore page.** The city-to-units dictionary and its "Ikate" alias. The
  padding of short rails with numbered copies. The flattening of the dictionary
  into city-tagged listings. The rail chips (All, Studio, 1BD, 2BD, 3BD, More).
  The free-text search, which reads a city, a bedroom count and a price ceiling
  out of the query with case-insensitive patterns. The booking total and the
  sign-in gate in front of it. The recorded payments (`pc_assets`) and the
  cached virtual account (`pc_va`), both written through to `localStorage`.
- **Sign-in page.** The sanitised `redirect` target. The headline picked by the
  `scenario` parameter. The user records built by the e-mail form, the
  create-account form and the mock Google/Apple buttons. Each handler signs in
  once and then navigates.
- **Mock session.** One `user` field. It is restored from `pc_user` when the
  provider mounts, and every sign-in and sign-out mirrors it into storage.

Each regular expression is modelled as a predicate on match positions. `match`
and `test` become `First`, which finds the leftmost position where the predicate
holds. The `i` flag is ASCII case folding (`Lower`), and `\s` is `IsSpace`. The
budget pattern's two backtracking fallbacks are written out as the pattern tries
them: `<=?` falls back to `<`, and an optional currency marker is dropped when no
amount follows it. Neither fallback can produce a match, because the character
after `<` is then `=` and the character after the dropped spaces is the marker,
and neither is part of an amount.

The dictionary is an ordered list of entries, because `Object.entries` walks the
city keys in insertion order. A stored entry is modelled as what `JSON.parse`
makes of it: one of the app's own records, JSON `null`, or text that does not
parse. `localStorage` is a class whose `entries` map the methods update in place.
The auth provider and the Explore page's stored state are classes over that same
storage object, so a reload is a fresh object over the same storage.

Modules:

- `Wrappers`: Option and Result.
- `Seqs`: filter and subsequence.
- `Text`: the string operations used throughout (trim, digits, case-insensitive
  search).
- `Apartments`: the data.
- `SearchQuery` and `SearchQueryFacts`: the query parser and its properties.
- `Listings`: list logic.
- `Persistence`: storage.
- `Session`: the auth provider.
- `SignInPage`.
- `Booking`.

## Model

| member | source | states |
|---|---|---|
| Apartments.Keys | src/pages/Explore.tsx:63 | the keys `Object.entries` walks, one per entry, in order |
| Apartments.Get | src/pages/Explore.tsx:70 | `map[city] \|\| []`: the units of the first entry with that key, or none when the key is absent |
| Apartments.Put | src/pages/Explore.tsx:20-22 | assigning a key overwrites an existing key in place or appends a new key last; the key then holds the new units and every other key is unchanged |
| Listings.IkateUnits | src/pages/Explore.tsx:22 | the Ikate list is empty exactly when Lekki is; otherwise it is the Lekki units whose title contains "ikate" in any case, in order and with their repeats, followed by the first Lekki unit once more |
| Listings.IkateFirstNamedTwice | src/pages/Explore.tsx:22 | a first Lekki unit that names Ikate opens the Ikate list and closes it, so the list holds it at least twice |
| Seqs.FilterMultiset | src/pages/Explore.tsx:22 | `filter` keeps every copy of an element that passes and drops every copy of one that fails |
| Listings.MapWithIkate | src/pages/Explore.tsx:19-24 | the copy has the same keys (plus "Ikate" when it was missing), every key other than Ikate unchanged, and Ikate built from the Lekki units |
| Listings.IkateUnitsWithoutNamed | src/pages/Explore.tsx:22 | when no Lekki title names Ikate, the Ikate list is the first Lekki unit alone |
| Listings.SampleIkateRail | src/pages/Explore.tsx:116 | in the bundled map the Ikate entry is just "Cozy Studio by the Lagoon"; the rail then pads this entry to 12 units (src/pages/Explore.tsx:291, see Listings.EnsureMinUnits) |
| Listings.EnsureMinUnits | src/pages/Explore.tsx:26-36 | the result keeps the input as its prefix and has length max(minCount, \|units\|); each added unit copies the units in turn (the default "<city> Apartment" unit when the list is empty), titled "<title> #<1-based position>" |
| Listings.NumberedTitleReadBack | src/pages/Explore.tsx:32 | the position can be read back as the run of digits after the last `#` of a padded title |
| Listings.NumberedTitlesDistinct | src/pages/Explore.tsx:32 | copies at different positions get different titles, whatever units they copy |
| Listings.Tagged | src/pages/Explore.tsx:64 | one listing per unit of an entry, tagged with the entry's city, in order |
| Listings.FlattenLength | src/pages/Explore.tsx:61-67 | `allUnits` yields as many listings as the entries hold units together |
| Listings.FlattenMember | src/pages/Explore.tsx:61-67 | a listing is produced exactly when its unit is stored under its city (both directions) |
| Listings.AllUnits | src/pages/Explore.tsx:61-67 | the nested loop yields every unit of every entry, tagged with its city, entry by entry in iteration order |
| Listings.FilterUnits | src/pages/Explore.tsx:69-77 | the units of the city that the chip keeps, in order: br = 0 for studio, 1 for 1bd, 2 for 2bd, br ≥ 3 for 3bd, all units for any other filter, none for a missing city |
| Listings.DefaultUnit | src/pages/Explore.tsx:28 | the padding unit of an empty rail: "<city> Apartment", 1 bedroom, 2 guests, 80000 a night, Wifi and Security |
| Listings.MoreChipKeepsAll | src/pages/Explore.tsx:280-282 | the "More" chip, lower-cased, filters nothing |
| Listings.SearchResults | src/pages/Explore.tsx:154-166 | an empty trimmed query finds nothing; otherwise the result is `all` filtered by the criteria, in order and with repeats, so a listing is in it exactly when it meets every criterion: the city named, the bedroom count named, the price within a non-zero budget, and the title containing the trimmed query in any case |
| Listings.Keep | src/pages/Explore.tsx:160-164 | the filter callback with its early rejections keeps a listing exactly when every test passes: the city, the bedroom count, the non-zero budget and the title (the `\|\| !q` alternative is dead, since the query is non-empty there) |
| Listings.SearchNeedsTitleMatch | src/pages/Explore.tsx:164 | a query that no title contains finds nothing, whatever city, bedrooms or budget it names |
| SearchQuery.ParseBedrooms | src/pages/Explore.tsx:47-51 | 0 for "studio" or a `\b0` count before bd/br; otherwise the count at the leftmost position where a count precedes a bedroom word; none exactly when neither occurs |
| SearchQueryFacts.BedroomsRoundTrip | src/pages/Explore.tsx:49-50 | "N bd", "Nbr", "N bed", "N bedroom", "N bedrooms" parse back to N |
| SearchQueryFacts.BedroomsCaseInsensitive | src/pages/Explore.tsx:48-49 | the bedroom parse is unchanged by lower-casing the query |
| SearchQueryFacts.BedroomsExample | src/pages/Explore.tsx:49 | "2BD" parses to 2 |
| SearchQueryFacts.StudioExample | src/pages/Explore.tsx:48 | "studio" and "studio 2bd" both parse to 0 bedrooms |
| SearchQuery.CurrencyEnd | src/pages/Explore.tsx:39 | `₦` and `#` end one character on, `ngn` in any case three on, and nothing else is a currency marker |
| SearchQuery.AmountAfter | src/pages/Explore.tsx:39 | after a keyword, the amount starts at a digit, comma or point, at or after the keyword (where exactly, in both directions, is stated by SearchQueryFacts.AmountAfterExactly) |
| SearchQueryFacts.AmountAfterOnlyGap | src/pages/Explore.tsx:39 | an amount found after a keyword is reached only over spaces, at most one `₦`, `#` or any-case `ngn`, and spaces |
| SearchQueryFacts.AmountAfterGap | src/pages/Explore.tsx:39 | spaces, an optional `₦`, `#` or any-case `ngn`, spaces and then a digit, comma or point: the amount starts at that character |
| SearchQueryFacts.AmountAfterExactly | src/pages/Explore.tsx:39 | the amount after a keyword starts at `s` if and only if `s` holds a digit, comma or point reached from the keyword over spaces, an optional marker and spaces; any other text between them means no amount |
| SearchQueryFacts.AmountAfterParts | src/pages/Explore.tsx:39 | after a keyword come any spaces, an optional `₦`, `ngn`, `NGN` or `#`, and any spaces: the amount starts at the digit that follows them all |
| SearchQueryFacts.AmountAfterFirstBudgetChar | src/pages/Explore.tsx:39 | no digit, comma or point lies between the keyword and the start of the amount |
| SearchQueryFacts.MarkerEnd | src/pages/Explore.tsx:39 | a currency marker written out ends right after itself |
| SearchQuery.KeywordLength | src/pages/Explore.tsx:39 | a keyword found at a position lies wholly inside the query |
| SearchQuery.KeywordChoice | src/pages/Explore.tsx:39 | the alternation's choice at one position: under (5) first, then `<=` (2), then `<` (1), then max (3), then below (5); 0 exactly when none matches |
| SearchQuery.AmountStart | src/pages/Explore.tsx:39 | an amount after a keyword starts beyond the keyword, at a digit, comma or point |
| SearchQuery.AmountText | src/pages/Explore.tsx:39 | the captured amount holds only digits, commas and points |
| SearchQuery.StripCommas | src/pages/Explore.tsx:41 | removing the commas from an amount without a point leaves only digits, and it is the identity on amounts without commas |
| SearchQuery.ParseBudget | src/pages/Explore.tsx:38-45 | no budget when no keyword is followed by an amount (the value at the leftmost match is stated by SearchQueryFacts.ParseBudgetLeftmost) |
| SearchQueryFacts.ParseBudgetLeftmost | src/pages/Explore.tsx:38-45 | the budget is the amount read at the leftmost position where a keyword is followed by an amount |
| SearchQuery.AmountValue | src/pages/Explore.tsx:41-44 | an amount gives a value exactly when its captured text has no decimal point (the source also reads one decimal point; see Left out) |
| SearchQueryFacts.ParseBudgetSome | src/pages/Explore.tsx:38-45 | a query whose leftmost keyword is followed by an amount without a point has a budget |
| SearchQueryFacts.BudgetRoundTrip | src/pages/Explore.tsx:38-45 | each of under, max, below, `<=` and `<`, followed by any spaces, an optional `₦`, `ngn`, `NGN` or `#`, any spaces, N and an optional `k` or `m`, parses back to N times 1, 1000 or 1000000 |
| SearchQueryFacts.BudgetCaseInsensitive | src/pages/Explore.tsx:39 | the budget parse is unchanged by lower-casing the query |
| SearchQueryFacts.StripCommasJoin | src/pages/Explore.tsx:41 | a thousands separator between two amount parts is dropped and the parts are joined |
| SearchQueryFacts.BudgetExample | src/pages/Explore.tsx:38-45 | "under 100k" parses to 100000 |
| SearchQueryFacts.NairaBudgetExample | src/pages/Explore.tsx:39 | "under ₦5000" parses to 5000 |
| SearchQueryFacts.NgnBudgetExample | src/pages/Explore.tsx:39 | "max ngn 20k" parses to 20000 |
| SearchQueryFacts.SpacedBudgetExample | src/pages/Explore.tsx:39 | "under  100k", with two spaces, parses to 100000 |
| SearchQueryFacts.CommaBudgetExample | src/pages/Explore.tsx:41 | "max 1,500" parses to 1500 |
| SearchQueryFacts.NoBudgetExample | src/pages/Explore.tsx:38-45 | "under x5" has no budget: the `x` after the keyword is neither a space nor a marker, so the pattern does not match |
| SearchQuery.ParseCity | src/pages/Explore.tsx:53-59 | Victoria Island exactly when `\bvi\b` or `victoria\s*island` occurs; otherwise Ikate when "ikate" occurs, Lekki when only "lekki" does, then Ajah, then Ikeja, else empty (each an if-and-only-if) |
| SearchQueryFacts.CityCaseInsensitive | src/pages/Explore.tsx:54-57 | the city parse is unchanged by lower-casing the query |
| SearchQueryFacts.NoVictoriaIslandWithoutV | src/pages/Explore.tsx:54 | a query without a `v` never names Victoria Island |
| SearchQueryFacts.VictoriaIslandRoundTrip | src/pages/Explore.tsx:54 | "Victoria Island" parses to itself |
| SearchQueryFacts.LekkiRoundTrip | src/pages/Explore.tsx:55 | "Lekki" parses to itself |
| SearchQueryFacts.IkateRoundTrip | src/pages/Explore.tsx:55 | "Ikate" parses to itself |
| SearchQueryFacts.AjahRoundTrip | src/pages/Explore.tsx:56 | "Ajah" parses to itself |
| SearchQueryFacts.IkejaRoundTrip | src/pages/Explore.tsx:57 | "Ikeja" parses to itself |
| SearchQueryFacts.IkateOverLekkiExample | src/pages/Explore.tsx:55 | a query naming both Lekki and Ikate parses to Ikate |
| SearchQuery.ResolveCityKey | src/pages/Explore.tsx:537-541 | "vi" in any case, and only a two-letter name, gives Victoria Island; otherwise any name containing "ikate" in any case gives Lekki; any other name is returned unchanged |
| SearchQueryFacts.ResolveCityKeyIdempotent | src/pages/Explore.tsx:537-541 | resolving a resolved key changes nothing |
| SearchQuery.Capitalize | src/pages/Explore.tsx:542-544 | same length; the first character upper-cased, the rest unchanged |
| SearchQueryFacts.CapitalizeIdempotent | src/pages/Explore.tsx:542-544 | capitalizing twice is capitalizing once |
| Text.Trim | src/pages/Explore.tsx:155 | `trim()`: no white space at either end, and the result is a slice of the input |
| Text.ContainsCI | src/pages/Explore.tsx:164 | a case-insensitive substring test holds exactly when the word matches at some position |
| Text.FirstLeftmost | src/pages/Explore.tsx:39 | `match` returns the leftmost position: the first position where the pattern holds is the one found |
| Text.NatToDecimal | src/pages/Explore.tsx:32 | the decimal digits of a number: non-empty, digits only, no leading zero, and they read back as the number |
| Booking.BookingTotal | src/pages/Explore.tsx:395 | nights × price for one night or more, one night's price otherwise |
| Booking.NightsFromInput | src/pages/Explore.tsx:413 | an empty nights field counts as one night, and any value below one is raised to one |
| Booking.TotalMonotone | src/pages/Explore.tsx:395 | more nights never cost less, and a stay costs at least one night's price |
| Booking.HandleBook | src/pages/Explore.tsx:132-138 | without a user, go to `/auth?redirect=/explore`; with one, open the booking form for that city and unit |
| Booking.GateReturnsToExplore | src/pages/Explore.tsx:134 | without a user the gate navigates to a path whose query string, read with SignInPage.SearchParam and sanitised by SignInPage.Redirect, sends the sign-in page back to `/explore` |
| Booking.GateSearch | src/pages/Explore.tsx:134 | the gate path's query string is `redirect=/explore` |
| Booking.GateRedirectParam | src/pages/Explore.tsx:134 | that query string's `redirect` parameter is `/explore` |
| Booking.NewAsset | src/pages/Explore.tsx:150 | the record carries id "a"+clock, the time stamp, NGN, status pending unless given, and the request's city, type and amount |
| Booking.HolderName | src/pages/Explore.tsx:144 | the signed-in user's name when it is non-empty, "Customer" otherwise, so never empty |
| Booking.AssetIdsDistinct | src/pages/Explore.tsx:150 | records made at different clock readings have different ids |
| Booking.NewAccount | src/pages/Explore.tsx:141-145 | the demo bank; an 11-digit number "10" followed by 100000000 + the draw; the holder named after the user, or "Customer" |
| Booking.LoadedAssets | src/pages/Explore.tsx:81-87 | a stored list replaces the assets, a stored null empties them, and a missing entry or any other stored value keeps them |
| Booking.LoadedAccount | src/pages/Explore.tsx:81-87 | a stored account replaces the cached one, a stored null clears it, and a missing entry or any other stored value keeps it |
| Booking.ExploreStore.constructor | src/pages/Explore.tsx:118-119 | the page starts with no assets and no account |
| Booking.ExploreStore.Load | src/pages/Explore.tsx:81-87 | both loaders applied to the current `pc_assets` and `pc_va` entries; a page with no cached account ends up agreeing with `pc_va` |
| Booking.ExploreStore.AddAsset | src/pages/Explore.tsx:149-151 | the new record is appended, the whole list is written to `pc_assets`, nothing else changes |
| Booking.ExploreStore.EnsureVA | src/pages/Explore.tsx:139-148 | a cached account is returned with nothing changed; otherwise a new account is cached and written to `pc_va` |
| Booking.ExploreStore.PayForBooking | src/pages/Explore.tsx:216-229 | paying reuses the cached account or opens one, and records "Apartment Booking — <title>" for the booking total; the storage afterwards is the old storage with `pc_va` written only when an account was opened and `pc_assets` holding the new list, nothing else |
| Booking.ReloadAfterPayment | src/pages/Explore.tsx:79-101 | a freshly loaded page over the same storage sees the appended payment |
| Booking.AccountStableAcrossReload | src/pages/Explore.tsx:139-148 | once an account is opened, a reloaded page reuses the same account |
| Persistence.LocalStorage.constructor | src/lib/auth.tsx:18 | the storage holds the given entries |
| Persistence.LocalStorage.GetItem | src/lib/auth.tsx:18 | the value stored under the key, or none exactly when the key is absent |
| Persistence.LocalStorage.SetItem | src/lib/auth.tsx:27 | the key now holds the value; every other entry is unchanged |
| Persistence.LocalStorage.RemoveItem | src/lib/auth.tsx:31 | the key is dropped; every other entry is unchanged |
| Session.Restore | src/lib/auth.tsx:16-21 | a stored user is taken, a stored null clears the user, and a missing entry or any other stored value keeps it |
| Session.AuthProvider.constructor | src/lib/auth.tsx:14 | nobody is signed in before the mount effect |
| Session.AuthProvider.Mount | src/lib/auth.tsx:16-21 | the user becomes what `Restore` makes of the `pc_user` entry |
| Session.AuthProvider.SignIn | src/lib/auth.tsx:25-28 | the user is set and stored under `pc_user`; no other entry changes; user and storage agree |
| Session.AuthProvider.SignOut | src/lib/auth.tsx:29-32 | the user is cleared and `pc_user` removed; no other entry changes; user and storage agree |
| Session.UseAuth | src/lib/auth.tsx:38-42 | outside a provider, the error "useAuth must be used within AuthProvider"; inside one, the provider's context |
| Session.SignInThenOut | src/lib/auth.tsx:25-32 | signing in and then out leaves nobody signed in and no `pc_user` entry, whatever came before |
| Session.ReloadAfterSignIn | src/lib/auth.tsx:13-28 | a fresh provider over the same storage restores the signed-in user |
| Session.ReloadAfterSignOut | src/lib/auth.tsx:13-32 | a fresh provider after a sign-out finds nobody signed in |
| SignInPage.Redirect | src/pages/Auth.tsx:16-20 | the target always starts with `/`; a parameter starting with `/` is kept as it is; anything else, including a missing or empty parameter, gives `/` |
| SignInPage.RedirectKeepsDoubleSlash | src/pages/Auth.tsx:19 | a parameter starting with `//` passes the check unchanged |
| SignInPage.SearchOf | src/pages/Auth.tsx:12 | the query string of a path is what follows its first `?` up to the `#` fragment, holds no `#`, and is empty when no `?` comes before the fragment |
| SignInPage.SearchOfSplit | src/pages/Auth.tsx:12 | the query string of `a?b` is `b` when `a` has no `?` and neither has a `#`, with or without a `#` fragment after `b` |
| SignInPage.SearchParam | src/pages/Auth.tsx:15-17 | `search.get(key)`: a value found never spans a `&` (which pair it comes from is stated by SignInPage.SearchParamPairs) |
| SignInPage.SplitPairs | src/pages/Auth.tsx:12 | the query string splits into at least one pair, none holding a `&` |
| SignInPage.JoinSplitPairs | src/pages/Auth.tsx:12 | joining the pairs back with `&` gives the query string, so the split loses nothing |
| SignInPage.FirstNamedSpec | src/pages/Auth.tsx:15-17 | looking a key up among pairs gives none exactly when no non-empty pair is named so, and otherwise the value of the first pair that is |
| SignInPage.SearchParamSplit | src/pages/Auth.tsx:15-17 | scanning the query string gives the same answer as splitting it into pairs and looking the key up |
| SignInPage.SearchParamPairs | src/pages/Auth.tsx:15-17 | `get` gives none exactly when no pair of the query string is named `key`, and otherwise the value of the first pair that is |
| SignInPage.SearchParamSkip | src/pages/Auth.tsx:15-17 | a leading pair that is empty or named otherwise is passed over |
| SignInPage.SearchParamAfterPair | src/pages/Auth.tsx:15-17 | a leading `name=value` pair for another name is passed over |
| SignInPage.RedirectAfterOtherParam | src/pages/Auth.tsx:15-20 | a local `redirect` placed after another parameter, as in `?scenario=hosts&redirect=/x`, is the target |
| SignInPage.SearchParamFirst | src/pages/Auth.tsx:15-17 | a leading `key=value` pair is read back as `value` |
| SignInPage.RedirectIdempotent | src/pages/Auth.tsx:16-20 | sanitising a sanitised target changes nothing |
| SignInPage.Scenario | src/pages/Auth.tsx:15 | the `scenario` parameter lower-cased letter by letter, or empty when it is missing; no capital letter is left |
| SignInPage.HeadlineFor | src/pages/Auth.tsx:26-38 | hosts and investors each get their own title and subtitle; every other scenario gets the guests' headline |
| SignInPage.HeadlineIgnoresCase | src/pages/Auth.tsx:15 | the headline does not depend on the letter case of `scenario` |
| SignInPage.SignInUser | src/pages/Auth.tsx:43-46 | the trimmed email; as name, the part of it before the first `@`, or "Guest" without an email; the trimmed phone, dropped exactly when empty |
| SignInPage.LeadingAtGivesEmptyName | src/pages/Auth.tsx:45 | an email starting with `@` gives a user with an empty name |
| SignInPage.CreateUser | src/pages/Auth.tsx:53-56 | the trimmed name or "Guest", the trimmed email, and the trimmed phone kept even when empty |
| SignInPage.OAuthUser | src/pages/Auth.tsx:61-65 | the fixed Google and Apple records, without a phone |
| SignInPage.NamesNonEmpty | src/pages/Auth.tsx:43-65 | every handler's record has a non-empty name, except the e-mail form's when the email starts with `@` |
| SignInPage.Submit | src/pages/Auth.tsx:46-47 | one sign-in with the record, then navigation to the sanitised `redirect` parameter of the query string |
| SignInPage.HandleSignInSubmit | src/pages/Auth.tsx:40-48 | signs in the e-mail form's record, stores it under `pc_user`, and navigates to the sanitised `redirect` parameter of the query string |
| SignInPage.HandleCreateSubmit | src/pages/Auth.tsx:50-58 | signs in the create form's record, stores it under `pc_user`, and navigates to the sanitised `redirect` parameter of the query string |
| SignInPage.OAuthSignIn | src/pages/Auth.tsx:60-67 | signs in the provider's fixed record, stores it under `pc_user`, and navigates to the sanitised `redirect` parameter of the query string |

## Left out

- Rendering is not modelled: the JSX, the modals' layout, `document.title`, `alert` and navigation itself. Each handler returns the path it would navigate to.
- The search header text, each rail's unit count and lowest price, the hero card and the amounts and dates of the Continue rail and My Assets are display only and not modelled.
- `cardImg` and `mediaFor` are not modelled. They build image URLs, and `no-build-media.json` is not part of this model. `resolveCityKey` and `capitalize`, which `mediaFor` uses, are modelled.
- Case folding in the patterns is ASCII only. Unicode case mapping beyond A–Z is not modelled.
- SearchQuery.ParseBudget: an amount containing a decimal point gives no budget here. The source turns "1.5k" into 1500 and rounds with `Math.round`. Floating point and `isFinite` are not modelled.
- SearchQuery.ParseBedrooms: the count is read as an exact natural number. The source's `Number(m[1])` is a double, so a digit run beyond 2^53 is rounded and one of more than about 309 digits gives `Infinity`. No listing has such a count, so the search results are the same either way.
- SearchQuery.AmountValue: the same weakening; the source gives a value for an amount with one decimal point and none only for text `Number` cannot read, such as two points.
- Booking.BookingTotal and Booking.NightsFromInput: the nights are integers. A fractional or non-numeric field (NaN) is not modelled.
- `Math.random` and `Date.now()` are parameters: the account number draw `offset` and the clock reading `now` with its ISO time stamp.
- Booking.NewAccount: the draw may be anything below 900000000. The source's `Math.floor` never reaches 899999999, so this is one value more than the draw can produce.
- JSON serialisation is not modelled. A stored entry is the value `JSON.parse` gives back. Any other JSON shape (a number, a string, an object of the wrong kind) falls under Unparsable, and a record of another kind (a user stored under `pc_assets`, say) is kept as that record. The loaders keep their prior value for both, where the source would adopt the parsed value.
- Exceptions from `localStorage` (quota, disabled storage) are not modelled: the model has no exceptions. In the source, the Explore page's `useLocalStorage` (src/pages/Explore.tsx:82-85, 92-94) and the auth mount effect (src/lib/auth.tsx:16-19) catch them, but `signIn` and `signOut` (src/lib/auth.tsx:27, 31) do not, so there a storage error would reach the caller after the user was already set.
- The `units || []` and `u.br || 0` guards are not modelled: lists are never null and bedroom counts are always numbers.
- Object key order for integer-like keys, which JavaScript lists first, is not modelled: city keys are names.
- `scenario` is passed in as an optional string; reading it from the URL is not modelled. `redirect` is read from the query string by SignInPage.SearchParam, which does no percent-decoding and no `+`-to-space conversion.
- SignInPage.Redirect: a target starting with `//` is kept, as in the source; how the router then treats it is not modelled.
- React's state scheduling and effect timing are not modelled. Each effect is a method call made at the point it runs.
- Listings.SearchResults: this is the source's behaviour, not a weakening. Every search test applies at once and the title must contain the whole trimmed query, so a query such as "lekki 2bd" finds only titles that contain it.

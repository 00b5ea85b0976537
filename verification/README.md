# RentLux front end: a Dafny model of its logic

RentLux is a student-housing listing front end for Dutse. Almost all of it is
presentation. This project models the parts that carry behaviour, as
immutable datatypes and pure functions, and proves what they guarantee:

- **The listing filter** of the dashboard (`filteredProperties`). It combines a case-insensitive substring search over title, location and tags, an optional type, an optional city and a price ceiling. It also covers the handlers that change the criteria: the nav buttons and the search box, the type select, and "Clear all filters". The filter is proved for any catalog, with its results on the fixed six-listing catalog `MOCK_PROPERTIES` proved too.
- **The signed-in user**: what the sign-in gate produces on login and on signup, admin verification, and logout.
- **The inspection-booking flow** of the listing detail view: the `idle | confirm | success` machine, and the ways the view asks to be closed.
- **The assistant chat widget**: the append-only message log, the blank-input guard, the loading flag and the settling of relay calls. The relay's reply is an arbitrary string. The widget is stepped with a choice of Enter-key handler: the one as written, or one guarded like the send button (see "## Findings"). Every log invariant is proved for both.

Files and modules:

| file | module | contents |
|---|---|---|
| text.dfy | `Text` | `toLowerCase` (ASCII letters), `includes`, `trim` |
| nullable.dfy | `Nullable` | `Option`, for `T \| null` fields |
| selection.dfy | `Selection` | `Array.prototype.filter` on sequences and its order facts |
| listings.dfy | `Listings` | `Property`, `FilterState`, the predicate, the filter, criteria updates |
| catalog.dfy | `Catalog` | `MOCK_PROPERTIES`, `CITIES`, `PROPERTY_TYPES` and what the filter returns on them |
| auth.dfy | `Auth` | `UserProfile`, sign-in form submission, verification, logout |
| booking.dfy | `Booking` | the booking status machine |
| chat.dfy | `Chat` | the chat log, send and settle |

Three places where the code's behaviour is easy to misread; the model follows the code:

- A type or city criterion applies only when it is truthy. The empty string therefore counts as unset, just like `null` (App.tsx:365-366). The type select already maps `""` to `null` (App.tsx:569).
- The `||` defaults of the submit handler replace only the empty string (App.tsx:59, 65). The browser refuses to submit the form while a `required` field is empty (App.tsx:233, 220, 261). So through the rendered form the defaults are never used; `Auth.AcceptedFormsSkipFallbacks` states this.
- The `UserProfile` record has an optional `nin`. The signup form collects one, but the profile never stores it (App.tsx:64-68).

The catalog's long description strings are written as concatenations of word pieces. Each value is exactly the string in the source; the split only keeps the verifier's work on literals small.

## Model

| member | source | states |
|---|---|---|
| Text.ToLower | App.tsx:362-364 | definition of `toLowerCase` on ASCII letters; keeps the length |
| Text.Contains | App.tsx:362-364 | definition of `includes` as a scan for a position where the needle starts; its partner is `Text.ContainsIffOccurs` |
| Text.ToLowerCharwise | App.tsx:362-364 | lower-casing keeps the length, turns each ASCII capital into its lower-case partner, keeps every other character, and leaves no capital |
| Text.ToLowerIdempotent | App.tsx:362-364 | lower-casing an already lower-cased string changes nothing, so the query and the fields are compared in one case |
| Text.ContainsIffOccurs | App.tsx:362-364 | `includes` holds exactly when the needle occurs at some position of the hay, in both directions |
| Text.IncludesEmpty | App.tsx:362 | every string includes the empty string |
| Text.MissingCharExcludes | App.tsx:362-364 | a needle with a character the hay lacks is not included in it |
| Text.TrimStart | components/ChatWidget.tsx:28 | the result is a suffix of the input, everything dropped is whitespace, and it does not start with whitespace |
| Text.TrimEnd | components/ChatWidget.tsx:28 | the result is a prefix of the input, everything dropped is whitespace, and it does not end with whitespace |
| Text.Trim | components/ChatWidget.tsx:28 | `trim` never lengthens, and its result neither starts nor ends with whitespace |
| Text.TrimIsPiece | components/ChatWidget.tsx:28 | what `trim` keeps is a contiguous piece of the input with only whitespace cut off before and after it |
| Text.IsBlank | components/ChatWidget.tsx:28 | definition of `!s.trim()`: the trimmed string is empty; its partner is `Text.BlankIffAllWhitespace` |
| Text.BlankIffAllWhitespace | components/ChatWidget.tsx:28 | `!s.trim()` holds exactly when every character of s is ECMAScript whitespace |
| Selection.Select | App.tsx:361-370 | `filter` keeps exactly the accepted entries, each as often as it occurs, and never lengthens the sequence |
| Selection.SelectIsOrderedSelection | App.tsx:361-370 | the output is the input read at an ascending list of positions, and a position is listed exactly when its entry is accepted |
| Listings.TypeNameInjective | types.ts:7 | distinct categories have distinct names, so comparing names compares categories |
| Listings.InitialFilters | App.tsx:340-346 | definition of the initial criteria: empty search, prices 0 to 5,000,000, no type, Dutse |
| Listings.Matches | App.tsx:361-369 | definition of the per-listing predicate: search, type, city and price all hold, and `minPrice` plays no part |
| Listings.Filter | App.tsx:360-371 | soundness and completeness: an entry is in the output exactly when it is in the catalog and meets all four criteria, with its catalog multiplicity |
| Listings.FilterIsOrderedSelection | App.tsx:361-370 | the output is an order-preserving subsequence of the catalog and holds exactly the matching positions |
| Listings.FilterSingle | App.tsx:361-370 | when exactly one catalog position matches, the output is that entry alone |
| Listings.FilterIdempotent | App.tsx:361-370 | filtering the output again with the same criteria returns it unchanged |
| Listings.FilterSound | App.tsx:365-369 | every listing shown is within the price ceiling, of the selected type and in the selected city whenever those are set, and matches the search |
| Listings.MinPriceIgnored | App.tsx:361-369 | criteria that differ only in `minPrice` give the same output |
| Listings.FilterAgrees | App.tsx:361-370 | criteria that agree on every catalog entry give the same output |
| Listings.FilterKeepsAll | App.tsx:361-370 | when every entry matches, the output is the whole catalog in order |
| Listings.EmptySearchMatchesAll | App.tsx:362-364 | the empty search term matches every listing |
| Listings.SearchMisses | App.tsx:362-364 | a search misses a listing when its title, location and every tag each lack some letter of the lower-cased query |
| Listings.SearchIgnoresCase | App.tsx:362-364 | search terms that lower-case alike select alike, so a term and its lower-cased form agree |
| Listings.SearchIgnoresDescription | App.tsx:362-364 | the description and the proximity note play no part in search |
| Listings.SetSearch | App.tsx:373-377 | a nav button or the search box replaces the search term and keeps the other four criteria |
| Listings.SelectType | App.tsx:569 | "Any Type" (the empty value) sets the type to null, any other value sets it, and nothing else changes |
| Listings.ClearFilters | App.tsx:612 | whatever the criteria, "Clear all filters" restores the initial ones: empty search, 0 to 5,000,000, no type, Dutse |
| Listings.ClearedSearchSelects | App.tsx:394 | after the logo clears the search, a listing is shown exactly when it meets the type, city and price criteria |
| Listings.SelectTypeSelects | App.tsx:569 | after "Any Type" the type criterion no longer filters; after choosing a type only listings of that type are shown |
| Catalog.MockProperties | constants.ts:3-88 | definition of the six listings, field by field, in source order |
| Catalog.Cities | constants.ts:90 | definition of `CITIES`: Dutse alone |
| Catalog.PropertyTypes | constants.ts:91 | definition of `PROPERTY_TYPES`: Self-Con, Flat, Studio, Shared (no Duplex) |
| Catalog.CatalogIds | constants.ts:3-88 | the catalog has six listings with ids "1" to "6" in order, so no two share an id |
| Catalog.CatalogAllInDutse | constants.ts:90 | every listing is in Dutse, the one entry of `CITIES`, so the initial city criterion removes nothing |
| Catalog.CatalogTypesOffered | constants.ts:91 | every listing's category is one the type select offers |
| Catalog.CatalogPricesWithinCeiling | constants.ts:3-88 | every price is positive and at most the initial ceiling of 5,000,000 |
| Catalog.InitialFiltersShowAll | App.tsx:340-346 | the initial criteria, which "Clear all filters" restores, show all six listings in order |
| Catalog.CeilingOf100000 | constants.ts:74-87 | with a ceiling of 100,000 and otherwise initial criteria, only the Yadi compound (90,000) is shown |
| Catalog.SearchMissesOthers | constants.ts:3-88 | for each of "Poly", "FUD", "Corpers" and "Takur", no listing except its one hit matches the search |
| Catalog.SearchPoly | constants.ts:32-45 | searching "Poly" shows only the Poly Road studio |
| Catalog.SearchFud | App.tsx:406 | the "FUD Lodges" button shows only the FUD Scholars lodge; the Yadi compound's proximity note mentions FUD but is not searched |
| Catalog.SearchCorpers | App.tsx:407 | the "Corpers Lodge" button shows only the Takur Awa lodge |
| Catalog.SearchTakur | App.tsx:408 | the "Takur Listings" button shows only the Takur Awa lodge |
| Auth.OrDefault | App.tsx:59 | `value \|\| fallback` on strings: the fallback replaces exactly the empty string |
| Auth.Submit | App.tsx:51-70 | login gives the verified demo user with the typed or the demo email; signup gives a pending user with the typed or default name and the typed email; neither stores a NIN |
| Auth.SubmitIgnoresCredentials | App.tsx:51-70 | the password and the NIN never affect the profile, and login ignores the typed name |
| Auth.SubmitFillsBlanks | App.tsx:57-68 | a submitted profile always has a name and a login always has an email; a signup keeps an empty email |
| Auth.Verify | App.tsx:691-693 | verification sets the status to verified and keeps every other field; no user maps to no user |
| Auth.VerifyIdempotent | App.tsx:691-693 | verifying twice is verifying once; a verified user is unchanged |
| Auth.BrowserAccepts | App.tsx:215-272 | definition of the required-field check: email and password always non-empty, name and NIN also on signup |
| Auth.AcceptedFormsSkipFallbacks | App.tsx:215-272 | when the browser lets the form submit (email and password always, name and NIN on signup, non-empty), the profile has the typed email, and on signup the typed name |
| Auth.SignupThenVerify | App.tsx:63-69 | a verified signup is the typed (or default) name and the typed email, verified, without NIN |
| Auth.Step | App.tsx:687-695 | logout signs out; the form acts only while signed out and yields verified on login, pending on signup |
| Auth.RunKeepsWellFormed | App.tsx:51-70 | every profile reachable by any sequence of sign-ins, verifications and logouts has a name and no NIN |
| Auth.SignedInUntilLogout | App.tsx:691-695 | until a logout the user stays signed in with the same name and email, and a verified user stays verified |
| Booking.Enabled | components/PropertyModal.tsx:37-137 | definition of the events each status offers: Book Inspection (line 234), the close button, the backdrop and a new listing always; Confirm and Cancel on the confirmation panel; Back to Browsing on the success panel; panels at rest, without the fade-out after Cancel |
| Booking.Step | components/PropertyModal.tsx:25-32 | booking asks for confirmation from any status, confirming succeeds, cancel, back-to-browsing and a new listing return to idle, closing keeps the status; the view asks to close exactly on back-to-browsing, the close button and the backdrop |
| Booking.SuccessOnlyByConfirming | components/PropertyModal.tsx:29-32 | among the events the view offers, success comes exactly from confirming on the confirmation panel or from closing the success panel, which keeps it |
| Booking.IdleWithoutBookClick | components/PropertyModal.tsx:14 | a view starts idle and stays idle until "Book Inspection" is pressed |
| Booking.SuccessNeedsConfirmation | components/PropertyModal.tsx:25-32 | a view still open whose panels were at rest that shows success got there by confirming on the confirmation panel after booking |
| Booking.PropertyChangeResets | components/PropertyModal.tsx:17-19 | showing another listing resets the status to idle from any status |
| Booking.CancelUndoesBooking | components/PropertyModal.tsx:86 | cancel is offered after booking and returns to idle without closing |
| Booking.BackToBrowsingCloses | components/PropertyModal.tsx:127-130 | back-to-browsing is offered only on success, resets to idle and asks to close |
| Booking.CloseAnyTime | components/PropertyModal.tsx:37-60 | the close button and the backdrop are there in every status, ask to close and leave the status as it is |
| Chat.InitialChat | components/ChatWidget.tsx:12-16 | the log starts with exactly one model message, the input is empty and nothing is loading |
| Chat.BeginSend | components/ChatWidget.tsx:27-38 | blank input changes nothing; otherwise one user message with the untrimmed text is appended, the input is cleared and loading is set |
| Chat.Settle | components/ChatWidget.tsx:40-52 | a reply appends one model message and a throw appends none; loading is cleared either way |
| Chat.ClickSend | components/ChatWidget.tsx:135-137 | the button sends exactly when nothing is loading and the input is not blank, and otherwise does nothing |
| Chat.KeyDownAsWritten | components/ChatWidget.tsx:55-60 | Enter without Shift sends whatever the loading flag; every other key does nothing |
| Chat.KeyDown | components/ChatWidget.tsx:55-60 | corrected: Enter without Shift does exactly what the send button does |
| Chat.EnterAndButton | components/ChatWidget.tsx:55-60 | Enter and the button agree when nothing is loading; while loading, Enter as written starts another relay call |
| Chat.Step | components/ChatWidget.tsx:27-60 | definition of one event: typing sets the input, a click goes through the button's guard, a key press through the chosen handler (as written or guarded), and a settling completes one pending call |
| Chat.Run | components/ChatWidget.tsx:27-60 | definition of the widget over a sequence of events under one key handler |
| Chat.StepExtendsLog | components/ChatWidget.tsx:36-47 | under either key handler, one event keeps the log as a prefix and adds at most one message |
| Chat.RunExtendsLog | components/ChatWidget.tsx:36-47 | under either key handler the log is append-only: the earlier log is a prefix of the log after any events |
| Chat.GreetingStaysFirst | components/ChatWidget.tsx:12-14 | under either key handler, the greeting stays the first message for the life of the widget |
| Chat.RunKeepsUserTextsNonBlank | components/ChatWidget.tsx:28-36 | under either key handler, no sequence of events puts a user message with blank text in the log |
| Chat.SendThenSettle | components/ChatWidget.tsx:27-53 | under either key handler, a send and its reply append the question and then the answer; with a throw only the question; loading ends and the input is empty |
| Chat.RunKeepsLoadingTracksRelay | components/ChatWidget.tsx:38-51 | with the corrected Enter key, loading is true exactly while the one relay call in flight is awaited |
| Chat.EnterWhileLoadingLosesTrack | components/ChatWidget.tsx:55-60 | as written, asking a second question with Enter before the first reply ends with loading false while a relay call is in flight |
| Chat.EnterWhileLoadingExample | components/ChatWidget.tsx:55-60 | the concrete run: fresh widget, ask "a", ask "b" with Enter, reply "x" to "a": not loading with one call in flight |

## Left out

- Rendering, scrolling, the mobile menu and CSS are not modelled. This includes the menu closing and the scroll to top inside `handleNavClick`. framer-motion animation is not modelled either, although an exiting panel stays clickable while it fades out (see the `Booking.Enabled` line).
- The sign-in gate's timed phase sequence and the profile page's timers are timer-driven display phases.
- `localStorage` persistence and the parsing of a stored user are browser I/O. A session in the model starts signed out.
- The uploaded NIN document (`ninFile`, `handleFileChange`) is a browser `File`. The model keeps only the form's text fields.
- The relay service (services/geminiService.ts) is a network call. A relay call settles with an arbitrary reply string or by throwing. The service itself never throws (services/geminiService.ts:26-44 returns a fixed string when the key is missing and catches every error), so the throwing outcome and the widget's `catch` over-approximate it. The model does not pair replies with the questions that caused them.
- The city select is disabled and fixed to Dutse, so no handler changes the city criterion; only "Clear all filters" writes it.
- `Intl.NumberFormat` price formatting, the floating-point `rating` and the `Date` timestamps of chat messages are not modelled. `console.log` calls are left out too.
- Booking.Enabled: describes the panels at rest. The fade-out after Cancel is not modelled. The confirmation panel leaves through `AnimatePresence` with an opacity exit (components/PropertyModal.tsx:63-68). Until the fade ends it still offers "Confirm Booking" and "Cancel" while the status is already idle, so Book Inspection, Cancel and then Confirm Booking during the fade reaches success from idle. The model excludes that path, and `Booking.SuccessNeedsConfirmation` is stated only for views whose panels are at rest. From confirm to success the success panel is rendered later at the same layer and covers the exiting panel, so no such window exists there.
- Booking: "Book Inspection" is treated as always enabled, as its handler is. In the confirm and success states the overlays cover it on screen, but stacking of elements is not modelled.
- Auth.Submit: models the submit handler alone, so it also accepts forms the browser refuses to submit (an empty required field, an email that is not an address, a NIN that is not eleven digits). It does not model the browser trimming the email field's value; `Auth.BrowserAccepts` keeps only the non-empty condition of `required`.
- Text.ToLowerCharwise: lower-cases ASCII letters only. `toLowerCase` also folds non-ASCII letters, but every catalog string and nav term is ASCII.

## Findings

| source | as written | input that shows it | evidently intended | confidence | as-written member | corrected member |
|---|---|---|---|---|---|---|
| components/ChatWidget.tsx:55-60 | Enter without Shift calls `handleSend` with no loading check, while the send button is disabled during loading (line 137) | a fresh widget; type "a", press Enter, type "b", press Enter before the reply, then the reply "x" to "a" arrives: loading is false while the call for "b" is still awaited | Enter sends only when the button could, so at most one relay call is in flight and loading shows exactly that | medium, not executed | Chat.KeyDownAsWritten | Chat.KeyDown |

The discrepancy is exhibited by `Chat.EnterWhileLoadingExample`, the concrete run above. `Chat.EnterWhileLoadingLosesTrack` shows the same for any idle widget and any two non-blank questions. `Chat.Step` and `Chat.Run` take the key handler as a parameter. The log invariants (`Chat.RunExtendsLog`, `Chat.GreetingStaysFirst`, `Chat.RunKeepsUserTextsNonBlank`) hold for both handlers. `Chat.RunKeepsLoadingTracksRelay` proves that with the guarded `Chat.KeyDown` the loading flag tracks the relay over every sequence of events.

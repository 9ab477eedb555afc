# Rate My Spots — a verified model of the dashboards

Rate My Spots is a React front end over a hosted Postgres database (Supabase).
Users rate stores from 1 to 5. The `users`, `stores` and `ratings` tables hold
the data, and the role in a user's profile picks one of three dashboards:

- an **administrator** sees totals, every user and every store with its
  average rating, can search both lists, and can add users and stores
  through validated forms;
- a **regular user** sees every store with its average and their own
  rating, can search by name or address, and can rate or re-rate a store
  through a star dialog;
- a **store owner** sees the one store assigned to them, its average, and
  the table of customers who rated it.

The model describes these components in Dafny:

- `Catalog` — the three tables (as records) and a `Database` object that
  stands for the hosted tables.
- `Aggregation` — the per-store summary every dashboard computes: the
  store's ratings, their mean (0 with none, exact rational arithmetic), and
  the caller's own rating found as the first matching row.
- `Text`, `Seqs` — the JavaScript string and array operations the
  components rely on: `toLowerCase`, `includes`, `trim`, and `filter` as an
  order-preserving selection.
- `StoreCard` — what a store card shows.
- `RatingModal` — the star dialog as an object with its state fields.
- `UserDashboard`, `OwnerDashboard`, `AdminDashboard`, `DashboardPage` —
  each page component as a class whose fields are its React state. Each
  has a method per handler, with the page's pure computations as functions
  beside it.

Each query to the hosted database returns either its rows or an error.
Success or failure is a `bool` parameter of the method that issues the
query. The rows come from the `Database` object's fields.

Some things the source does not do, which the model keeps as written:

- `handleSubmitRating` does not re-check that the value lies in 1..5. The
  range comes only from the dialog offering five stars.
- `handleSubmitRating` does not retry after a uniqueness conflict. It
  chooses update or insert from the cached own rating alone, so the table
  stays unique only while that cache agrees with it
  (`UserDashboard.UpsertKeepsUnique`, `UserDashboard.StaleCacheDuplicates`).
- The owner's store lookup uses a single-row query. An owner with two
  stores therefore gets the "no store" screen, the same as an owner with
  none (`OwnerDashboard.StoreOfOwner`).
- A failed owner lookup does not clear a store shown earlier. The "no
  store" screen is only guaranteed after a fresh mount
  (`OwnerDashboard.FailedLookupShowsNoStore`).
- The new-store form stores the raw field values. The trimmed values that
  validation checks are not the ones inserted (`AdminDashboard.Component.AddStore`).

## Model

| member | source | states |
|---|---|---|
| Aggregation.Count | src/components/dashboards/AdminDashboard.tsx:88 | the count of a store's ratings is the length of its rating list |
| Aggregation.Sum | src/components/dashboards/AdminDashboard.tsx:89 | the `reduce` total of the rating values; no contract of its own, its meaning is stated by Aggregation.Average, Aggregation.SumAppend and Aggregation.SumBounds |
| Aggregation.Average | src/components/dashboards/AdminDashboard.tsx:88-90 | the average is 0 when there are no ratings; otherwise the average times the count equals the sum |
| Aggregation.ForStore | src/components/dashboards/AdminDashboard.tsx:87 | a store's ratings are exactly the rows with that `store_id`, in table order |
| Aggregation.StoreAverage | src/components/dashboards/UserDashboard.tsx:70-73 | the mean of one store's ratings; no contract of its own, its meaning is stated by Aggregation.Average over Aggregation.ForStore and by Aggregation.OtherStoresIgnored |
| Aggregation.NewRatingExtendsStore | src/components/dashboards/UserDashboard.tsx:128-134 | inserting a row for a store appends it to that store's ratings, adds its value to the sum and one to the count |
| Aggregation.SumBounds | src/components/dashboards/UserDashboard.tsx:72 | with every value in lo..hi, the sum lies between lo·count and hi·count |
| Aggregation.AverageBounds | src/components/dashboards/OwnerDashboard.tsx:75-77 | with at least one rating and every value in lo..hi, the average lies in lo..hi |
| Aggregation.OtherStoresIgnored | src/components/dashboards/UserDashboard.tsx:70-73 | rows of other stores change neither a store's rating list nor its average |
| Aggregation.SumAppend | src/components/dashboards/OwnerDashboard.tsx:76 | the sum of concatenated rating lists is the sum of the sums |
| Aggregation.FirstRatingBy | src/components/dashboards/UserDashboard.tsx:74 | `find` yields nothing iff no row is by the user; otherwise it yields the value of a row by the user with no earlier row by them |
| Aggregation.ThreeRatingsAverageFour | src/components/dashboards/AdminDashboard.tsx:86-96 | ratings 5, 3 and 4 for one store give a count of 3 and an average of exactly 4 |
| Seqs.Select | src/components/dashboards/AdminDashboard.tsx:110-115 | `filter` returns no more elements than it was given, only passing ones, every passing one, in their original order |
| Seqs.SelectCounts | src/components/dashboards/AdminDashboard.tsx:120-124 | each passing element is kept as often as it occurs, and no other element occurs |
| Seqs.SelectAll | src/components/dashboards/AdminDashboard.tsx:110 | a filter every element passes returns the whole list |
| Seqs.SelectNone | src/components/dashboards/AdminDashboard.tsx:87 | a filter no element passes returns the empty list |
| Seqs.SelectOnly | src/components/dashboards/UserDashboard.tsx:108-112 | when only one element passes, the filter returns that element alone |
| Seqs.SelectAppend | src/components/dashboards/AdminDashboard.tsx:87 | filtering a concatenation is the concatenation of the filtered parts |
| Seqs.CountTrue | src/components/StoreCard.tsx:23-33 | the number of filled stars is at most the number of stars, and 0 iff none is filled |
| Text.Lower | src/components/dashboards/UserDashboard.tsx:91-92 | lower-casing keeps the length and maps every character through the ASCII lower-case mapping |
| Text.LowerIdempotent | src/components/dashboards/AdminDashboard.tsx:111 | a lower-cased string has no upper-case letter, and lower-casing it again changes nothing |
| Text.LowerOfLower | src/components/dashboards/AdminDashboard.tsx:114 | a string with no upper-case letter is its own lower-case form |
| Text.IncludesIff | src/components/dashboards/AdminDashboard.tsx:111-114 | `s.includes(t)` holds iff some slice of `s` equals `t` |
| Text.IncludesEmpty | src/components/dashboards/AdminDashboard.tsx:111 | every string includes the empty search term |
| Text.IncludesAt | src/components/dashboards/UserDashboard.tsx:91 | a slice equal to `t` is enough for `includes` |
| Text.TrimStart | src/components/dashboards/AdminDashboard.tsx:21 | the result is a suffix of the input; every dropped character is white space; the result does not start with white space |
| Text.TrimEnd | src/components/dashboards/AdminDashboard.tsx:23 | the result is a prefix of the input; every dropped character is white space; the result does not end with white space |
| Text.Trim | src/components/dashboards/AdminDashboard.tsx:33-35 | `trim` is the slice of the input left after removing white space from both ends: every character outside the slice is white space, the result neither starts nor ends with white space, and it is empty iff the input is all white space |
| StoreCard.Stars | src/components/StoreCard.tsx:20-36 | five stars, star k filled iff k ≤ rating |
| StoreCard.FilledStars | src/components/StoreCard.tsx:23-31 | the number of filled stars is the rating cut down to 0..5 |
| StoreCard.Round | src/components/StoreCard.tsx:63 | `Math.round` is the whole number r with r ≤ x + 0.5 < r + 1 |
| StoreCard.RoundWithin | src/components/StoreCard.tsx:63 | rounding a value between two whole numbers stays between them |
| StoreCard.ButtonLabel | src/components/StoreCard.tsx:83-100 | the button reads "Modify Rating" iff the footer shows an own rating, and "Submit Rating" otherwise |
| StoreCard.Render | src/components/StoreCard.tsx:38-105 | title and address are the store's; the overall stars are the rounded average; e-mail is shown iff the admin prop is set and the e-mail is truthy; a footer iff not admin; the "your rating" footer iff the own rating is positive |
| StoreCard.ModifyIffRated | src/components/StoreCard.tsx:72-102 | a non-admin card offers "Modify Rating" exactly when the own rating is present and positive |
| RatingModal.InitialSelection | src/components/RatingModal.tsx:17 | `currentRating \|\| 0` is the rating when it is truthy and 0 otherwise |
| RatingModal.Highlights | src/components/RatingModal.tsx:49-67 | star k lights iff hover ≥ k, or there is no hover and the selection ≥ k |
| RatingModal.HighlightCount | src/components/RatingModal.tsx:61 | with no hover, as many stars light as the selection (cut down to 0..5); with a hover, as many as the hover |
| RatingModal.Title | src/components/RatingModal.tsx:40 | "Update Rating" iff editing, and "Rate Store" iff not editing |
| RatingModal.SubmitCaption | src/components/RatingModal.tsx:87 | "Update Rating" iff editing, and "Submit Rating" iff not editing |
| RatingModal.UnitWord | src/components/RatingModal.tsx:72 | "star" iff exactly one is selected, and "stars" iff not |
| RatingModal.Component.constructor | src/components/RatingModal.tsx:17-18 | mounting selects `currentRating \|\| 0` and clears the hover |
| RatingModal.Component.SetProps | src/components/RatingModal.tsx:16-18 | new props on a mounted dialog leave the selection and the hover as they were |
| RatingModal.Component.Open | src/components/RatingModal.tsx:17-18 | opening with fresh state selects the opened store's `currentRating \|\| 0` |
| RatingModal.Component.ClickStar | src/components/RatingModal.tsx:53 | clicking star k selects k and changes nothing else |
| RatingModal.Component.EnterStar | src/components/RatingModal.tsx:54 | entering star k sets the hover to k |
| RatingModal.Component.LeaveStar | src/components/RatingModal.tsx:55 | leaving a star clears the hover |
| RatingModal.Component.Submit | src/components/RatingModal.tsx:20-27 | with a positive selection: submit it, close, reset the selection to the props' rating and clear the hover; otherwise do nothing; a submitted value lies in 1..5; within the dialog's range a value is submitted exactly when the button is enabled (`disabled={selectedRating === 0}`) |
| RatingModal.Component.Close | src/components/RatingModal.tsx:29-33 | close without submitting, reset the selection to the props' rating and clear the hover |
| RatingModal.EnabledSubmits | src/components/RatingModal.tsx:81-88 | pressing the enabled confirm button submits exactly the current selection |
| RatingModal.ClickedStarIsSubmitted | src/components/RatingModal.tsx:20-27 | clicking star k and submitting hands exactly k to `onSubmit`, whatever the dialog was opened with |
| RatingModal.StaleSelectionAcrossStores | src/components/RatingModal.tsx:17 | closing on a store rated 4, then submitting at once on an unrated store, submits 4 |
| RatingModal.FreshSelectionAcrossStores | src/components/RatingModal.tsx:17 | with fresh state per opening, the same steps submit nothing |
| RatingModal.OpenThenSubmit | src/components/RatingModal.tsx:17-27 | after a fresh opening, an immediate submit sends the store's own rating if it is truthy, and nothing otherwise |
| UserDashboard.OwnRatingIsFirstPairRow | src/components/dashboards/UserDashboard.tsx:70-74 | finding the user's row among the store's ratings gives the first row of the whole table for that user and store |
| UserDashboard.PairRatingIsOwn | src/components/dashboards/UserDashboard.tsx:74 | the own rating, when present, is the value of a row by that user on that store; it is absent iff there is no such row |
| UserDashboard.ViewOf | src/components/dashboards/UserDashboard.tsx:70-82 | a store's entry has the store's id, name and address, the mean of that store's ratings (0 with none), and the user's own rating as the first row of the table for that user and store |
| UserDashboard.StoresWithRatings | src/components/dashboards/UserDashboard.tsx:69-83 | one entry per store row, in the same order, each that store's entry |
| UserDashboard.FetchedViewAgrees | src/components/dashboards/UserDashboard.tsx:69-85 | when no stored value is zero, a freshly built entry's own rating is truthy exactly when the user has a row for that store |
| UserDashboard.FilterStores | src/components/dashboards/UserDashboard.tsx:89-95 | the search keeps exactly the stores whose lower-cased name or address includes the lower-cased term, in order |
| UserDashboard.EmptySearchKeepsAll | src/components/dashboards/UserDashboard.tsx:25 | the initial empty search shows every store |
| UserDashboard.WestMatchesNameAndAddress | src/components/dashboards/UserDashboard.tsx:90-93 | "west" finds "Westside Mart" by its name and a store at "2 West Ave" by its address |
| UserDashboard.UpdateWhere | src/components/dashboards/UserDashboard.tsx:108-112 | the update gives every row of the user and store the new value and leaves every other row as it was |
| UserDashboard.Upsert | src/components/dashboards/UserDashboard.tsx:105-134 | the length grows by one exactly when the cached rating is falsy. A truthy cache gives every row of the pair the new value in place and keeps all other rows; an update that matches no row writes nothing. A falsy cache keeps every existing row, including the pair's own, and appends the new row last |
| UserDashboard.RowsForSingle | src/components/dashboards/UserDashboard.tsx:108-112 | in a table with at most one row per user and store, a row of the pair is its only row |
| UserDashboard.UpsertKeepsUnique | src/components/dashboards/UserDashboard.tsx:102-149 | if the table had at most one row per pair and the cached rating agreed with it, a submit leaves it so, with exactly one row for the pair holding the new value |
| UserDashboard.FetchedRatingAgrees | src/components/dashboards/UserDashboard.tsx:74 | with no zero ratings stored, the own rating read by a fetch agrees with the table |
| UserDashboard.StaleCacheDuplicates | src/components/dashboards/UserDashboard.tsx:105-134 | a cache that misses an existing row makes the submit insert a second row for the pair |
| UserDashboard.RepeatedSubmits | src/components/dashboards/UserDashboard.tsx:102-151 | after any series of nonzero submits, each from a fresh fetch, exactly one row holds the last value and uniqueness is kept |
| UserDashboard.RateThenUpdate | src/components/dashboards/UserDashboard.tsx:102-151 | rating 3 and then 5 leaves the single row (U, S, 5) |
| UserDashboard.Component.constructor | src/components/dashboards/UserDashboard.tsx:23-27 | no stores, loading, no selected store |
| UserDashboard.Component.FetchStores | src/components/dashboards/UserDashboard.tsx:38-87 | loading ends; on success `stores` is rebuilt from both tables, and on either query's failure it is kept |
| UserDashboard.Component.RateStore | src/components/dashboards/UserDashboard.tsx:97-100 | the clicked store becomes the selected store |
| UserDashboard.Component.SubmitRating | src/components/dashboards/UserDashboard.tsx:102-152 | nothing without a selected store; a failed write changes nothing; a successful write performs the update-or-insert and re-fetches, keeping uniqueness when the cache agreed |
| OwnerDashboard.StoreOfOwner | src/components/dashboards/OwnerDashboard.tsx:26-30 | the single-row lookup succeeds iff exactly one store has this owner, and then yields that store |
| OwnerDashboard.CustomerOf | src/components/dashboards/OwnerDashboard.tsx:58-61 | the joined customer is the name and e-mail of a user with that id, and is absent iff there is none |
| OwnerDashboard.Join | src/components/dashboards/OwnerDashboard.tsx:54-63 | one row per rating, in order, each with its rating and its customer |
| OwnerDashboard.RatingsOf | src/components/dashboards/OwnerDashboard.tsx:75-76 | the ratings of the joined rows, one per row, in order |
| OwnerDashboard.RowsOfStore | src/components/dashboards/OwnerDashboard.tsx:54-63 | the ratings query with its embedded customers; no contract of its own, its meaning is stated by OwnerDashboard.RowsAreThatStoresOnly and OwnerDashboard.Join |
| OwnerDashboard.RowsAreThatStoresOnly | src/components/dashboards/OwnerDashboard.tsx:54-63 | the rows shown are exactly the store's ratings: none of another store, none missing |
| OwnerDashboard.ShownName | src/components/dashboards/OwnerDashboard.tsx:187 | "Unknown" iff there is no customer or the name is empty (or is that word); otherwise the name |
| OwnerDashboard.ShownEmail | src/components/dashboards/OwnerDashboard.tsx:189 | "N/A" iff there is no customer or the e-mail is empty (or is that word); otherwise the e-mail |
| OwnerDashboard.RatingsWord | src/components/dashboards/OwnerDashboard.tsx:153 | "rating" iff the count is 1, "ratings" otherwise |
| OwnerDashboard.RowStars | src/components/dashboards/OwnerDashboard.tsx:84-99 | five stars per row, star k filled iff k ≤ the row's rating |
| OwnerDashboard.Render | src/components/dashboards/OwnerDashboard.tsx:101-117 | a spinner iff loading; the "no store" screen iff loaded without a store; otherwise the store page with the store, average and rows |
| OwnerDashboard.Component.constructor | src/components/dashboards/OwnerDashboard.tsx:14-17 | no store, average 0, no ratings, loading; the shown average is the mean of the shown rows |
| OwnerDashboard.Component.FetchStoreData | src/components/dashboards/OwnerDashboard.tsx:23-82 | a failed lookup changes only `loading`; a successful one sets the store, and the ratings and average are replaced only when the ratings query succeeds; the average shown stays the mean of the rows shown |
| OwnerDashboard.FailedLookupShowsNoStore | src/components/dashboards/OwnerDashboard.tsx:32-50 | from a fresh mount, a failed or empty lookup leads to the "no store" screen |
| OwnerDashboard.LoadedPageShowsOwnStore | src/components/dashboards/OwnerDashboard.tsx:52-81 | from a fresh mount, a successful lookup and ratings query show the caller's own store with exactly its rows and their mean |
| AdminDashboard.StoresWithRatings | src/components/dashboards/AdminDashboard.tsx:86-96 | one entry per store, in order, each the store itself with the mean of its ratings |
| AdminDashboard.AveragesWithinStars | src/components/dashboards/AdminDashboard.tsx:88-90 | with every stored value in 1..5, a rated store's average lies in 1..5 and an unrated store's is 0 |
| AdminDashboard.StatsOf | src/components/dashboards/AdminDashboard.tsx:101-105 | the three totals; no contract of its own, AdminDashboard.Component.FetchData states that a successful fetch shows the totals of the tables |
| AdminDashboard.Owners | src/components/dashboards/AdminDashboard.tsx:100 | the owner list is exactly the users whose role is "owner", in order |
| AdminDashboard.FilterUsers | src/components/dashboards/AdminDashboard.tsx:109-117 | the user search keeps exactly the users whose lower-cased name, e-mail, address or role includes the lower-cased term, in order |
| AdminDashboard.EmptyTermKeepsAllUsers | src/components/dashboards/AdminDashboard.tsx:47 | the initial empty user search shows every user |
| AdminDashboard.FilterStores | src/components/dashboards/AdminDashboard.tsx:119-126 | the store search keeps exactly the stores matched by name, address or a truthy e-mail, in order |
| AdminDashboard.NoEmailMatchesByNameOrAddress | src/components/dashboards/AdminDashboard.tsx:123 | a store without an e-mail is found only by its name or address |
| AdminDashboard.Card | src/components/dashboards/AdminDashboard.tsx:446-457 | an admin card has the store's name and address, stars for the rounded average, no footer, and the e-mail iff it is truthy |
| AdminDashboard.RatedCardFillsRoundedAverage | src/components/dashboards/AdminDashboard.tsx:86-96 | with every stored value in 1..5, a rated store's card fills between one and five stars, as many as the rounded average |
| AdminDashboard.UserIssue | src/components/dashboards/AdminDashboard.tsx:20-30 | no issue iff every field of the user schema passes; otherwise the first failing field in schema order |
| AdminDashboard.StoreIssue | src/components/dashboards/AdminDashboard.tsx:32-37 | no issue iff name, e-mail and address pass; otherwise the first of them that fails |
| AdminDashboard.StoreValidIff | src/components/dashboards/AdminDashboard.tsx:32-37 | a new store is valid iff its trimmed name and address are nonempty and its trimmed e-mail is an e-mail |
| AdminDashboard.NormalizeOwner | src/components/dashboards/AdminDashboard.tsx:185 | `owner_id \|\| null` is null iff the field is empty, and otherwise the field itself |
| AdminDashboard.StoreRow | src/components/dashboards/AdminDashboard.tsx:181-186 | the inserted row: raw name, e-mail and address with the normalised owner; no contract of its own, AdminDashboard.Component.AddStore states when it is inserted |
| AdminDashboard.Component.constructor | src/components/dashboards/AdminDashboard.tsx:41-53 | zero totals, empty lists, loading, blank forms |
| AdminDashboard.Component.FetchData | src/components/dashboards/AdminDashboard.tsx:67-107 | loading ends; when all three queries succeed, users, stores with averages, owners and totals reflect the tables; otherwise they are kept |
| AdminDashboard.Component.EditNewUser | src/components/dashboards/AdminDashboard.tsx:51 | the user form holds what was typed |
| AdminDashboard.Component.EditNewStore | src/components/dashboards/AdminDashboard.tsx:52 | the store form holds what was typed |
| AdminDashboard.Component.AddUser | src/components/dashboards/AdminDashboard.tsx:128-168 | sign-up is attempted iff the form validates; on its success the form is cleared and the data re-fetched; otherwise nothing changes |
| AdminDashboard.Component.AddStore | src/components/dashboards/AdminDashboard.tsx:170-205 | a row is inserted iff the form validates and the insert succeeds; the row carries the raw form values and the normalised owner; then the form is cleared and the data re-fetched |
| DashboardPage.Panels | src/pages/Dashboard.tsx:95-97 | at most one dashboard, the one named by the role, and none for an unknown role |
| DashboardPage.Render | src/pages/Dashboard.tsx:71-100 | the spinner iff loading; "Unable to load profile" iff loaded without a profile; otherwise the header and the role's dashboard |
| DashboardPage.RedirectsToLogin | src/pages/Dashboard.tsx:65-69 | the redirect condition, loaded and signed out; no contract of its own, DashboardPage.SignedOutRedirects and DashboardPage.FailedProfileShowsNoDashboard state when it holds |
| DashboardPage.AtMostOneDashboard | src/pages/Dashboard.tsx:94-98 | the main screen never shows two dashboards |
| DashboardPage.ProfileOf | src/pages/Dashboard.tsx:49-53 | the single-row profile query succeeds iff exactly one user has this id, and yields that user |
| DashboardPage.Component.constructor | src/pages/Dashboard.tsx:13-16 | no session, no user, no profile, loading |
| DashboardPage.Component.FetchUserProfile | src/pages/Dashboard.tsx:48-63 | loading ends; the profile is set on success and kept on failure |
| DashboardPage.Component.OnSession | src/pages/Dashboard.tsx:19-43 | session and user follow the new session; without a user loading ends, and with one the profile is fetched |
| DashboardPage.SignedOutRedirects | src/pages/Dashboard.tsx:65-69 | with no session the page redirects to the login page |
| DashboardPage.SignedInSeesOwnDashboard | src/pages/Dashboard.tsx:82-98 | a signed-in user with a profile is not redirected and sees their name, role and role's dashboard |
| DashboardPage.FailedProfileShowsNoDashboard | src/pages/Dashboard.tsx:55-59 | a failed profile query shows "Unable to load profile" without redirecting |

## Left out

- Network, authentication and subscriptions: every hosted-database query,
  `auth.signUp`, `getSession` and `onAuthStateChange` is left out. A `bool`
  parameter says whether the call succeeded, and the `Database` object stands
  for the tables.
- Asynchrony: each handler runs to completion before the next event.
  `Promise.all`, the `setTimeout(…, 0)`, and interleavings of overlapping
  fetches or submits are not modelled.
- A React re-render that follows a state change is not modelled as a
  separate step. The filtered lists are functions of the state
  (`UserDashboard.Component.Visible`, `AdminDashboard.Component.VisibleUsers`,
  `AdminDashboard.Component.VisibleStores`), not stored copies.
- Floating point: averages are exact rationals. `toFixed(1)` display
  formatting is left out. `Math.round` is modelled exactly on those rationals.
- Text.Lower: lower-cases ASCII letters only, because full Unicode case
  mapping has no counterpart in Dafny.
- Lengths in the zod `min`/`max` checks count code points, not UTF-16 code
  units. The two differ only for characters outside the Basic Multilingual Plane.
- AdminDashboard.UserIssue: the zod e-mail format is the parameter `isEmail`,
  not the zod regular expression. Zod's message texts and the toasts that
  show them are left out.
- AdminDashboard.Component.AddUser: the `users` row that sign-up creates on
  the server is not modelled, so the re-fetch reads the tables as they were.
- Toasts, dialog open flags (`isAddUserOpen`, `isAddStoreOpen`,
  `isRatingModalOpen`), layout, and the store description line of the dialog
  are left out. The Header, Index and FilterBar components are not part of
  this model.
- Row order: each `select('*')` result is taken in the order of the
  `Database` sequences, an insert goes last and an update keeps its row in
  place. Postgres promises no order without `ORDER BY`. This affects only
  the display order and, when a pair has duplicate rows, which one `find`
  returns first.
- Row ids, `created_at`, and the owner table's date column are left out.
- OwnerDashboard.Component.FetchStoreData: the `!storeData` branch after a
  successful single-row query cannot be reached, so it is folded into the
  failed lookup. Both end loading and change nothing else.
- DashboardPage.Render: the user id each dashboard receives (`user!.id`) is
  not part of the screen value.
- The user dashboard's spinner unmounts the rating dialog while a fetch is
  in progress. `RatingModal.Component` is modelled on its own rather than
  embedded in the user dashboard's state. The finding below concerns the
  path in which no fetch happens between two openings.

## Findings

| source | as written | input that shows it | evidently intended | confidence | as-written member | corrected member |
|---|---|---|---|---|---|---|
| src/components/RatingModal.tsx:17 | The selection is initialised from `currentRating` only when the dialog mounts. The user dashboard keeps one dialog mounted, without a `key`, while the selected store changes (src/components/dashboards/UserDashboard.tsx:195-204). Closing resets the selection to the rating of the store it was last used with. | Open the dialog on a store rated 4 and cancel. Then open it on an unrated store and press "Submit Rating" at once. The value 4 is sent for the unrated store, where the button should have been disabled. | Each opening starts from the opened store's own rating (`currentRating \|\| 0`). | high, not executed | RatingModal.StaleSelectionAcrossStores | RatingModal.FreshSelectionAcrossStores |

`RatingModal.Component.SetProps` models the props update as written.
`RatingModal.Component.Open` is the corrected opening, and
`RatingModal.OpenThenSubmit` proves the intended behaviour for every store.

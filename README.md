# library-front: a Dafny model of the client's rules

library-front is a React client for a library: a public catalogue, sign-in
and registration forms, a bookings page, a librarian's book management page
and an administrator's page for categories and shelf locations. It has no
engine of its own. Its rules live in the route guards, the session store,
the header's query-string editing and the page handlers that keep local
copies of server lists. This project models those rules and proves what
they promise.

Layout, one module per source file:

- `Common` holds the shared pieces:
  - `Option`, and `ApiOutcome`, which is a call's result or its failure.
  - JavaScript string helpers: ASCII case mapping, `includes`, `trim`, `split` and `join`.
  - Decimal `toString` and its parse-back.
  - `slice` with clamping; filter and map by id; `find` by id.
- `QueryParams` holds a query string as an ordered list of name/value pairs. `SetParam` follows the `set` operation of the URLSearchParams interface in the WHATWG URL Standard: it replaces the first pair with the name, drops the later ones, or appends when the name is absent. `SearchParams` is the mutable object the header builds and changes.
- `AuthProvider`, `ProtectedRoute`, `AuthRedirect` and `Routes` cover the session, the two route guards and the route table.
- `LocaleUtil` and `Header` cover the localized-field fallback and the header's navigation rules.
- `MainPage`, `LibrarianPage`, `AdminPage`, `BookingPage`, `SignupPage` and `LoginPage` cover the pages. Each page is a class whose fields are its `useState` slots. Each handler is a method that takes the server call's outcome, and the user's answer to a confirmation, as parameters. It returns the request it makes and states the whole new state.

## Model

| member | source | states |
|---|---|---|
| Common.ContainsAt | src/modules/main-page/index.tsx:54 | `includes` holds exactly when the text occurs at some index |
| Common.Trim | src/modules/librarian-page/index.tsx:118 | the trimmed string is the part of the input after its leading whitespace and before its trailing whitespace: everything cut off is whitespace, and what remains neither starts nor ends with it |
| Common.JoinSplit | src/modules/librarian-page/index.tsx:118 | joining the pieces of a split with the separator gives back the input |
| Common.SplitCount | src/modules/librarian-page/index.tsx:118 | a split has one piece more than the input has separators |
| Common.ParseNatToString | src/modules/librarian-page/index.tsx:70-71 | the decimal text of a number reads back as that number |
| Common.PageRows | src/modules/main-page/index.tsx:97 | the page is the window of the list starting at page*rows: row i is the list's entry page*rows+i, and there are rowsPerPage rows or as many as remain, none past the end |
| Common.FindById | src/modules/librarian-page/index.tsx:181 | `find` gives nothing exactly when no entry has the id, else the first entry with it, whichever index that is |
| QueryParams.GetParam | src/components/Header/index.tsx:48 | `get` gives the value of the first pair with the name, or nothing when there is none |
| QueryParams.SetParam | src/components/Header/index.tsx:81 | URLSearchParams `set`: replace the first pair with the name and drop the later ones, or append when there is none; its properties are the Set* lemmas below |
| QueryParams.GetAfterSet | src/components/Header/index.tsx:81 | after `set`, `get` of the name gives the new value |
| QueryParams.SetLeavesOnePair | src/components/Header/index.tsx:81 | after `set`, exactly one pair has the name |
| QueryParams.SetKeepsOtherKeys | src/components/Header/index.tsx:81 | `set` does not change `get` of any other name |
| QueryParams.SetKeepsOtherPairs | src/components/Header/index.tsx:81 | `set` keeps every pair with another name, in order |
| QueryParams.SetIdempotent | src/components/Header/index.tsx:81 | setting the same name to the same value twice is the same as once |
| QueryParams.SetReplacesInPlace | src/components/Header/index.tsx:81 | when the name is present, its first pair takes the new value in place and every later pair with the name is dropped |
| QueryParams.SearchParams.Set | src/components/Header/index.tsx:80-81 | the mutable parameters object becomes the `set` of its old pairs |
| AuthProvider.UserFromToken | src/providers/AuthProvider/index.tsx:26-44 | a user exactly when a non-empty token cookie exists, and then the stub user with role "admin" |
| AuthProvider.UseAuth | src/providers/AuthProvider/index.tsx:73-78 | the hook fails with its message outside a provider and gives the context inside one |
| AuthProvider.IsAdminUser | src/providers/AuthProvider/index.tsx:64 | true exactly when a user is signed in with role "admin", false when logged out |
| AuthProvider.Session.constructor | src/providers/AuthProvider/index.tsx:22 | the first render is logged out |
| AuthProvider.Session.Mount | src/providers/AuthProvider/index.tsx:46-51 | the mount effect adopts the decoded user when there is one and keeps the state otherwise |
| AuthProvider.Session.Login | src/providers/AuthProvider/index.tsx:53-56 | login sets the user and writes the token "mocked.jwt.token" with a one-day lifetime |
| AuthProvider.Session.Logout | src/providers/AuthProvider/index.tsx:58-62 | logout clears the user and the cookie and navigates to "/" |
| AuthProvider.Session.IsAdmin | src/providers/AuthProvider/index.tsx:64 | isAdmin reads the current user as IsAdminUser does |
| AuthProvider.LogoutIsIdempotent | src/providers/AuthProvider/index.tsx:58-62 | both logouts navigate to "/", and the user and cookie after the second are those after the first: none |
| AuthProvider.StartUp | src/providers/AuthProvider/index.tsx:22-51 | after start-up the user is the one decoded from the stored cookie, and the visitor is an admin exactly when the cookie is non-empty |
| ProtectedRoute.Protect | src/app/routes/ProtectedRoute.tsx:9-18 | renders exactly when a user exists and no role is required or the role matches; otherwise redirects, replacing the entry, to "/login" without a user and to "/" with one |
| ProtectedRoute.AnonymousGoesToLogin | src/app/routes/ProtectedRoute.tsx:11-13 | without a user the guard redirects to "/login" whatever role is required |
| ProtectedRoute.WrongRoleGoesHome | src/app/routes/ProtectedRoute.tsx:14-16 | a user with another role is redirected to "/" |
| ProtectedRoute.NoRoleAdmitsEveryUser | src/app/routes/ProtectedRoute.tsx:14-17 | with no required role every signed-in user gets the page |
| ProtectedRoute.OutcomesExclusive | src/app/routes/ProtectedRoute.tsx:11-17 | the result is one of the three outcomes, and both redirects replace the entry |
| AuthRedirect.RendersPage | src/app/routes/AuthRedirect.tsx:16 | the wrapped page renders exactly when no user is signed in |
| AuthRedirect.EffectNavigation | src/app/routes/AuthRedirect.tsx:10-14 | the effect navigates to "/" exactly when it runs, on mount or on a change of `user`, with a user present |
| AuthRedirect.AnonymousStays | src/app/routes/AuthRedirect.tsx:11-16 | without a user there is no navigation and the page renders |
| AuthRedirect.LoginWhileMountedRedirects | src/app/routes/AuthRedirect.tsx:10-14 | a login while the page is shown triggers the redirect and hides the page |
| AuthRedirect.SignedInOnMountRedirects | src/app/routes/AuthRedirect.tsx:10-13 | a signed-in visitor is redirected on mount |
| Routes.FindRoute | src/app/routes/index.tsx:37-43 | a route is found exactly when some entry has the path, and the found element is that entry's |
| Routes.MatchTable | src/app/routes/index.tsx:21-28 | the five listed paths are bound to their pages and guards |
| Routes.Match | src/app/routes/index.tsx:21-28 | the element of the first route whose path equals the path, else the catch-all's replacing redirect to "/"; MatchTable lists the result for each path |
| Routes.RenderElement | src/app/routes/index.tsx:37-43 | a plain page shows; a sign-in page shows only without a user; a guarded page follows Protect; a navigation redirects |
| Routes.Render | src/app/routes/index.tsx:30-43 | the placeholder is shown exactly while `isLoading` is truthy |
| Routes.HomeIsOpen | src/app/routes/index.tsx:22 | "/" shows the main page to everybody |
| Routes.AdminIsGated | src/app/routes/index.tsx:14-25 | "/admin" is shown exactly to users with role "admin"; visitors go to "/login" and other users to "/" |
| Routes.LibrarianIsGated | src/app/routes/index.tsx:15-26 | "/librarian" is shown exactly to users with role "librarian"; visitors go to "/login" |
| Routes.SignInPagesRedirectWhenAuthenticated | src/app/routes/index.tsx:18-24 | "/login" and "/register" show their forms only without a user and render nothing otherwise |
| Routes.UnknownPathGoesHome | src/app/routes/index.tsx:27 | any path outside the table redirects to "/", replacing the entry |
| LocaleUtil.Capitalize | src/utils/LocaleUtil.ts:6 | the first character is upper-cased and the rest kept |
| LocaleUtil.LocalizedKey | src/utils/LocaleUtil.ts:6 | the key is the base key, then the language's first character upper-cased, then the rest of the language; an empty language leaves the base key |
| LocaleUtil.GetLocalizedValue | src/utils/LocaleUtil.ts:7 | a non-empty localized field wins; the result is "" exactly when the three fields are all empty, and otherwise one of them |
| LocaleUtil.KazakhKey | src/utils/LocaleUtil.ts:6 | ("title", "kk") gives "titleKk" |
| LocaleUtil.EmptyLanguageKey | src/utils/LocaleUtil.ts:6 | an empty language leaves the base key |
| LocaleUtil.EnglishIsTheFallback | src/utils/LocaleUtil.ts:6-7 | "en" asks for the same key as the English fallback, so the result is the English field or else the bare field |
| LocaleUtil.EmptyLocalizedFallsThrough | src/utils/LocaleUtil.ts:7 | an empty localized field falls through to a non-empty English one |
| Header.TargetPath | src/components/Header/index.tsx:62 | "/admin" exactly when the current path starts with "/admin", "/" otherwise |
| Header.IsFilteredBy | src/components/Header/index.tsx:48 | filtered exactly when the search text or the URL's category is non-empty |
| Header.SearchQueryFor | src/components/Header/index.tsx:86-92 | with search text, `search` takes the text and the other pairs are kept in order; without it the query is unchanged |
| Header.CategoryQueryFor | src/components/Header/index.tsx:79-84 | `category` is set once to the pick, and every other pair is kept in order |
| Header.CategoryPickFilters | src/components/Header/index.tsx:79-84 | after picking a non-empty category the header shows itself filtered |
| Header.SearchKeepsCategory | src/components/Header/index.tsx:86-92 | a search never changes the category filter |
| Header.AdminPrefixIsTextual | src/components/Header/index.tsx:62 | "/administrator" also counts as the admin area, "/librarian" does not |
| Header.HeaderState.IsFiltered | src/components/Header/index.tsx:48 | the header reads its own search text as IsFilteredBy does |
| Header.HeaderState.constructor | src/components/Header/index.tsx:28-31 | the search text starts empty and the category menu closed |
| Header.HeaderState.HandleSearchChange | src/components/Header/index.tsx:56-58 | typing replaces the search text |
| Header.HeaderState.HandleMenuOpen | src/components/Header/index.tsx:71-73 | the menu opens |
| Header.HeaderState.HandleMenuClose | src/components/Header/index.tsx:75-77 | the menu closes |
| Header.HeaderState.HandleClearSearch | src/components/Header/index.tsx:60-63 | the search text is emptied and the header navigates to the bare target path with no query |
| Header.HeaderState.HandleCategorySelect | src/components/Header/index.tsx:79-84 | the header navigates to the target path with CategoryQueryFor of the current query and closes the menu |
| Header.HeaderState.HandleSearch | src/components/Header/index.tsx:86-92 | the header navigates to the target path with SearchQueryFor of the current query |
| Header.HeaderState.HandleSearchKeyDown | src/components/Header/index.tsx:65-69 | a navigation happens exactly when the key is "Enter", and it is the search's |
| MainPage.FilterBooks | src/modules/main-page/index.tsx:52-57 | a book is kept exactly when it is in the catalogue and passes the query and category test, and as many times as the catalogue holds it |
| MainPage.FilterKeepsOrder | src/modules/main-page/index.tsx:52-57 | the filtered list is an order-preserving subsequence of the catalogue |
| MainPage.NoFilterShowsAll | src/modules/main-page/index.tsx:54-55 | with neither a query nor a category the whole catalogue is shown |
| MainPage.KeepDigits | src/modules/main-page/index.tsx:65 | the result is the input's digits in their order: a subsequence holding every digit as often as the input does and nothing else |
| MainPage.SanitizeBorrowPeriod | src/modules/main-page/index.tsx:32-68 | the period is the first two digits typed (fewer when there are fewer), or "30" exactly when those two read above 30; so it is at most 30 and empty exactly when the input has no digit |
| MainPage.SanitizeIdempotent | src/modules/main-page/index.tsx:64-68 | sanitising a sanitised period changes nothing |
| MainPage.SanitizeKeepsValidPeriod | src/modules/main-page/index.tsx:64-68 | a valid period is kept as typed |
| MainPage.MainPageState.constructor | src/modules/main-page/index.tsx:37-44 | the initial slots: ten rows, page 0, booking type "inside", no selection, the whole catalogue |
| MainPage.MainPageState.OnSearchChange | src/modules/main-page/index.tsx:47-58 | the list is refiltered by the URL's search and category, "" when missing |
| MainPage.MainPageState.DisplayedBooks | src/modules/main-page/index.tsx:97 | the filtered list's page window: row i is filtered entry page*rows+i, with rowsPerPage rows or as many as remain |
| MainPage.MainPageState.ShowsNoResults | src/modules/main-page/index.tsx:95-122 | the "no results" text replaces the list exactly when the filtered list is empty |
| MainPage.MainPageState.HandleChangePage | src/modules/main-page/index.tsx:76-78 | only the page changes |
| MainPage.MainPageState.HandleChangeRowsPerPage | src/modules/main-page/index.tsx:84-87 | the page size changes and the page returns to 0 |
| MainPage.MainPageState.HandleBookingTypeChange | src/modules/main-page/index.tsx:60-62 | the booking type takes the choice |
| MainPage.MainPageState.HandleBookingPeriodChange | src/modules/main-page/index.tsx:64-69 | the stored period is the sanitised input |
| MainPage.MainPageState.HandleBookSelection | src/modules/main-page/index.tsx:71-74 | the book is selected and the dialog opens |
| MainPage.MainPageState.HandleCloseModal | src/modules/main-page/index.tsx:80-82 | the dialog closes |
| LibrarianPage.EmptyBook | src/modules/librarian-page/index.tsx:37-46 | the blank draft has no id, one copy, no category and no location |
| LibrarianPage.WithData | src/modules/librarian-page/index.tsx:155 | a merged book keeps its id and takes every other field from the draft |
| LibrarianPage.MergeEdited | src/modules/librarian-page/index.tsx:155 | the list keeps its length and every id; entries with the draft's id become the draft, the others are unchanged |
| LibrarianPage.SaveUntouchedKeepsList | src/modules/librarian-page/index.tsx:130-155 | saving an unchanged draft of a listed book, with distinct ids, leaves the list as it was |
| LibrarianPage.RemoveBook | src/modules/librarian-page/index.tsx:174 | exactly the books with another id remain, each as often as before, in order |
| LibrarianPage.BooksQueryCarries | src/modules/librarian-page/index.tsx:60-73 | the fetch query names search, category, page and limit in that order, and reading them back gives the values |
| LibrarianPage.SplitAuthors | src/modules/librarian-page/index.tsx:117-119 | one author more than there are commas, each the trimmed piece of the split in its place |
| LibrarianPage.AuthorsAreClean | src/modules/librarian-page/index.tsx:118 | no author entry holds a comma or starts or ends with whitespace |
| LibrarianPage.CategoryTitle | src/modules/librarian-page/index.tsx:180-183 | "" for an unknown id; else the title of the first category with the id, in "kk", "en" or, for any other language, Russian |
| LibrarianPage.LocationTitle | src/modules/librarian-page/index.tsx:185-188 | "" for an unknown id; else "floor, room, row, shelf" of the first location with the id |
| LibrarianPage.LibrarianPageState.constructor | src/modules/librarian-page/index.tsx:51-58 | the initial slots: empty lists, the blank draft, page 0 of ten rows |
| LibrarianPage.LibrarianPageState.FetchBooks | src/modules/librarian-page/index.tsx:60-79 | the query is built from the URL's filters and the paging; a success replaces the list and the total, a failure keeps them |
| LibrarianPage.LibrarianPageState.LoadCategories | src/modules/librarian-page/index.tsx:80-87 | a success replaces the categories, a failure keeps them |
| LibrarianPage.LibrarianPageState.LoadLocations | src/modules/librarian-page/index.tsx:89-96 | a success replaces the locations, a failure keeps them |
| LibrarianPage.LibrarianPageState.HandleChangePage | src/modules/librarian-page/index.tsx:103-105 | only the page changes |
| LibrarianPage.LibrarianPageState.HandleChangeRowsPerPage | src/modules/librarian-page/index.tsx:107-110 | the page size changes and the page returns to 0 |
| LibrarianPage.LibrarianPageState.HandleInputChange | src/modules/librarian-page/index.tsx:112-115 | only the named field of the draft changes |
| LibrarianPage.LibrarianPageState.HandleAuthorsChange | src/modules/librarian-page/index.tsx:117-120 | the draft's authors become the split input |
| LibrarianPage.LibrarianPageState.HandleCategoryChange | src/modules/librarian-page/index.tsx:122-124 | only the draft's category changes |
| LibrarianPage.LibrarianPageState.HandleLocationChange | src/modules/librarian-page/index.tsx:126-128 | only the draft's location changes |
| LibrarianPage.LibrarianPageState.HandleEditBook | src/modules/librarian-page/index.tsx:130-133 | the draft becomes the book and the dialog opens |
| LibrarianPage.LibrarianPageState.HandleOpenModal | src/modules/librarian-page/index.tsx:135-138 | the draft is reset to the blank book and the dialog opens |
| LibrarianPage.LibrarianPageState.HandleCloseModal | src/modules/librarian-page/index.tsx:307 | the dialog closes |
| LibrarianPage.LibrarianPageState.HandleSaveBook | src/modules/librarian-page/index.tsx:140-167 | no request and no change without a category or location; otherwise an update merges by id or a creation appends the server's record, then the dialog closes; a failure changes nothing |
| LibrarianPage.LibrarianPageState.HandleDeleteBook | src/modules/librarian-page/index.tsx:169-178 | nothing without confirmation; after it, the books with the id go only when the call succeeds |
| AdminPage.BlankCategory | src/modules/admin-page/index.tsx:167 | a new category draft has the four empty fields |
| AdminPage.BlankLocation | src/modules/admin-page/index.tsx:211 | a new location draft has the four empty fields |
| AdminPage.ItemPathSegments | src/modules/admin-page/index.tsx:83 | the request path "/type/id" carries the type and the id as its two segments |
| AdminPage.ReplaceById | src/modules/admin-page/index.tsx:85-87 | the whole edited record replaces every entry with the id; lengths and other entries are kept |
| AdminPage.ReplaceKeepsIds | src/modules/admin-page/index.tsx:85 | a record that keeps its id keeps every id of the list |
| AdminPage.RemoveById | src/modules/admin-page/index.tsx:99-101 | exactly the entries with another id remain, each as often as before, in order |
| AdminPage.RemoveAbsentId | src/modules/admin-page/index.tsx:99 | removing an id no entry has changes nothing |
| AdminPage.LoadError | src/modules/admin-page/index.tsx:35-47 | a locations failure overwrites a categories failure; two successes keep the previous error |
| AdminPage.AdminPageState.constructor | src/modules/admin-page/index.tsx:24-31 | the initial slots: empty lists, loading, no error, nothing edited |
| AdminPage.AdminPageState.FetchData | src/modules/admin-page/index.tsx:33-52 | each list is replaced on success and kept on failure, the error is LoadError's, and loading ends |
| AdminPage.AdminPageState.HandleSaveCategory | src/modules/admin-page/index.tsx:54-63 | no request without a draft; a success appends the saved category and drops the draft; a failure sets its error and keeps the list |
| AdminPage.AdminPageState.HandleSaveLocation | src/modules/admin-page/index.tsx:65-74 | the same for locations |
| AdminPage.AdminPageState.HandleEdit | src/modules/admin-page/index.tsx:76-79 | edit mode starts on the id with a copy of the record |
| AdminPage.AdminPageState.EditField | src/modules/admin-page/index.tsx:129-132 | a keystroke changes one field of the edited record |
| AdminPage.AdminPageState.CancelEdit | src/modules/admin-page/index.tsx:135 | edit mode ends |
| AdminPage.AdminPageState.HandleSave | src/modules/admin-page/index.tsx:81-93 | a success replaces the record by id only in the list the type selects and ends edit mode; a failure sets the error and keeps both lists |
| AdminPage.AdminPageState.HandleDelete | src/modules/admin-page/index.tsx:95-106 | a success removes the id only from the list the type selects; a failure sets the error and keeps both lists |
| AdminPage.AdminPageState.ShowsSpinner | src/modules/admin-page/index.tsx:111 | the spinner shows exactly while loading |
| AdminPage.AdminPageState.ShowsError | src/modules/admin-page/index.tsx:112 | the alert shows exactly when the error is set and non-empty |
| AdminPage.AdminPageState.StartNewCategory | src/modules/admin-page/index.tsx:167 | the draft row starts blank |
| AdminPage.AdminPageState.StartNewLocation | src/modules/admin-page/index.tsx:211 | the draft row starts blank |
| AdminPage.AdminPageState.EditNewCategory | src/modules/admin-page/index.tsx:154-157 | a keystroke changes one field of the draft |
| AdminPage.AdminPageState.EditNewLocation | src/modules/admin-page/index.tsx:198-201 | a keystroke changes one field of the draft |
| AdminPage.AdminPageState.CancelNewCategory | src/modules/admin-page/index.tsx:160 | the draft row goes away |
| AdminPage.AdminPageState.CancelNewLocation | src/modules/admin-page/index.tsx:204 | the draft row goes away |
| BookingPage.BookingsEndpoint | src/modules/booking-page/index.tsx:34 | "/bookings" exactly for a librarian, "/bookings/my" otherwise |
| BookingPage.CancelPath | src/modules/booking-page/index.tsx:50 | the cancel path is "/bookings/" followed by the id |
| BookingPage.ReturnPath | src/modules/booking-page/index.tsx:60 | the return path is "/bookings/return/" followed by the id |
| BookingPage.MarkReturned | src/modules/booking-page/index.tsx:61 | bookings with the id get status "RETURNED"; length and other entries are unchanged |
| BookingPage.MarkReturnedIdempotent | src/modules/booking-page/index.tsx:61 | returning twice is the same as once |
| BookingPage.MarkReturnedKeepsIds | src/modules/booking-page/index.tsx:61 | a return keeps every id in place |
| BookingPage.CancelBooking | src/modules/booking-page/index.tsx:51 | exactly the bookings with another id remain, each as often as before, in order |
| BookingPage.ShowsReturnButton | src/modules/booking-page/index.tsx:99-103 | the return button shows on every booking not yet returned |
| BookingPage.ShowsCancelButton | src/modules/booking-page/index.tsx:104 | the cancel button shows to librarians on bookings not yet returned |
| BookingPage.ReturnHidesActions | src/modules/booking-page/index.tsx:99-104 | a returned booking shows neither button, and no other booking's return button changes |
| BookingPage.BookingsPageState.constructor | src/modules/booking-page/index.tsx:23-27 | the initial slots: empty list, loading, no error, page 0 of ten rows |
| BookingPage.BookingsPageState.BeginLoad | src/modules/booking-page/index.tsx:32-34 | loading starts, the error is cleared and the endpoint for the user's kind is asked for |
| BookingPage.BookingsPageState.FinishLoad | src/modules/booking-page/index.tsx:35-40 | a success replaces the list, a failure sets the load error, and loading ends either way |
| BookingPage.BookingsPageState.LoadBookings | src/modules/booking-page/index.tsx:29-44 | the whole load: the endpoint, the list or the error, and loading false at the end |
| BookingPage.BookingsPageState.HandleCancelBooking | src/modules/booking-page/index.tsx:46-56 | nothing without confirmation; a success removes the booking, a failure sets its error and keeps the list |
| BookingPage.BookingsPageState.HandleReturnBook | src/modules/booking-page/index.tsx:58-65 | a success marks the booking returned, a failure sets its error and keeps the list |
| BookingPage.BookingsPageState.HandleChangePage | src/modules/booking-page/index.tsx:67-69 | only the page changes |
| BookingPage.BookingsPageState.HandleChangeRowsPerPage | src/modules/booking-page/index.tsx:71-74 | the page size changes and the page returns to 0 |
| BookingPage.BookingsPageState.DisplayedBookings | src/modules/booking-page/index.tsx:89-91 | nothing unless the list is shown; else the page window: row i is booking page*rows+i, with rowsPerPage rows or as many as remain |
| BookingPage.BookingsPageState.ShowsNoBookings | src/modules/booking-page/index.tsx:85-87 | the "no bookings" text: loaded, no error, and an empty list |
| BookingPage.BookingsPageState.ShowsList | src/modules/booking-page/index.tsx:89 | the list and pager: loaded, no error, and a non-empty list |
| BookingPage.BodyIsExclusive | src/modules/booking-page/index.tsx:85-89 | the empty text and the list never show together, and one of them shows once loaded without an error |
| SignupPage.EmptyForm | src/modules/signup-page/index.tsx:15-22 | every field starts empty |
| SignupPage.WithField | src/modules/signup-page/index.tsx:28-30 | only the named field changes |
| SignupPage.MissingRequiredFields | src/modules/signup-page/index.tsx:33 | the form is incomplete exactly when login, email, password, first name or last name is empty |
| SignupPage.PhoneIsOptional | src/modules/signup-page/index.tsx:33 | the phone never decides whether the form is complete |
| SignupPage.Complete | src/modules/signup-page/index.tsx:47-60 | a sign-up exactly on success with a token; else the response's message or the default, 400 and 409 mapped to their keys, and any other failure's own message |
| SignupPage.FailureIsExplained | src/modules/signup-page/index.tsx:51-61 | the error shown is never empty when failed calls carry a message |
| SignupPage.SignupPageState.constructor | src/modules/signup-page/index.tsx:15-26 | an empty form, no error, snackbar closed, not loading |
| SignupPage.SignupPageState.HandleChange | src/modules/signup-page/index.tsx:28-30 | the form changes in the named field only |
| SignupPage.SignupPageState.Submit | src/modules/signup-page/index.tsx:32-39 | an incomplete form shows the required-fields error and sends nothing; a complete one is sent and loading starts |
| SignupPage.SignupPageState.Finish | src/modules/signup-page/index.tsx:41-64 | a sign-up passes the token to login and goes to "/"; a failure shows its error; loading ends either way |
| SignupPage.SignupPageState.HandleRegister | src/modules/signup-page/index.tsx:32-65 | the whole registration: Submit, then Finish when the form was sent |
| SignupPage.SignupPageState.HandleKeyDown | src/modules/signup-page/index.tsx:67-69 | other keys change nothing and send nothing; "Enter" runs the whole registration: the required-fields error without a request, or the send followed by the login and "/" or the error, with loading ending |
| SignupPage.SignupPageState.CloseSnackbar | src/modules/signup-page/index.tsx:119-120 | the snackbar closes |
| LoginPage.CredentialsAccepted | src/modules/login-page/index.tsx:17 | the one accepted pair: login "admin" with password "password" |
| LoginPage.LoginPageState.constructor | src/modules/login-page/index.tsx:11-14 | empty fields, no error, snackbar closed |
| LoginPage.LoginPageState.SetLogin | src/modules/login-page/index.tsx:36 | typing replaces the login |
| LoginPage.LoginPageState.SetPassword | src/modules/login-page/index.tsx:45 | typing replaces the password |
| LoginPage.LoginPageState.HandleLogin | src/modules/login-page/index.tsx:16-23 | accepted credentials change nothing; any others set the error and open the snackbar |
| LoginPage.LoginPageState.HandleKeyDown | src/modules/login-page/index.tsx:37-46 | only "Enter" runs the check |
| LoginPage.LoginPageState.CloseSnackbar | src/modules/login-page/index.tsx:52-53 | the snackbar closes and the error text stays |

## Left out

- Network I/O (`src/utils/api.ts`). Each call is an `ApiOutcome` parameter: the decoded JSON on success, or a failure with an optional HTTP status and a message. The wrapper in this revision throws errors without a status, so the 400 and 409 branches of registration are reachable only for failures that carry one.
- Translation (`t`). Error slots hold the i18n key, such as "error.updateFailed", instead of the translated text.
- Rendering with MUI components, and the language switch and cookie of the Layout. `src/components/Layout/index.tsx`, `src/components/UserMenu/index.tsx`, `src/components/Footer/index.tsx` and `src/index.tsx` are not part of this model.
- The header's own category fetch and language switch. These are I/O, and they do not affect the query-string rules.
- `window.confirm`. The user's answer is a boolean parameter.
- Query-string serialization and percent-encoding. A navigation target is a path plus the list of pairs, not the text `params.toString()` would produce.
- Unicode. Case mapping and `trim` cover ASCII only; Unicode case mapping and the non-ASCII whitespace and line terminators `trim` also removes are not modelled.
- The random mock catalogue and `new Date()`. The catalogue is the `MainPageState` constructor's parameter; the current year is the `LibrarianPageState` constructor's.
- Booking dates shown with `toLocaleDateString`, and the librarian's authors shown with `join(", ")`. Both are display only.
- Concurrency. Each handler runs to completion with its call's outcome. Overlapping fetches, stale responses and the intermediate state between the start and end of the librarian's and admin's calls are not modelled.
- JWT decoding, token expiry and cookie lifetime arithmetic. The source does not implement them; the cookie records the lifetime it was written with.
- `getUserFromToken`'s `catch` branch. Nothing inside its `try` can throw, so that branch is unreachable and not modelled.
- `isLibrarian` and `isLoading`. The provider's context defines neither. `BookingsPageState.LoadBookings` and `Routes.Render` take them as inputs.
- The header's `isLibrarian()` call (src/components/Header/index.tsx:32,114). The provider's context has no such member, so as written the header fails on every render, and with it every page the Layout wraps (main, login, register, librarian and bookings). The page models assume the header renders; `Header` models only its query-string and navigation rules.
- BookingPage.BookingsPageState.LoadBookings: takes `isLibrarian` as a boolean. The provider supplies no such function, so the page as written would fail when it calls it.
- Routes.Render: `isLoading` is a parameter. The provider's value is undefined, which is falsy, so the routes always render.
- SignupPage.SignupPageState.Finish: returns the token it passes to `login`. The provider's `login` expects a user record, and the model does not feed a string into `Session.Login`.
- LibrarianPage.LibrarianPageState.HandleInputChange: takes the year and quantity as integers. In the browser the number inputs' values arrive as strings and are stored as typed; their four- and five-character input limits are not modelled.
- SignupPage.Complete: the `err instanceof Error` test is taken as always true. Failures from the API wrapper, and the error thrown for an unsuccessful response, are all `Error`s; other thrown values and JSON parse errors are not modelled.
- Routes.FindRoute: uses exact path equality. React Router's case-insensitive and trailing-slash matching is not modelled.
- AdminPage.AdminPageState.HandleSave: requires that a row is in edit mode. The source only offers the save button then, and `editedData` has been filled by `handleEdit`. Its "locations" branch is kept as the function is written, but the page never reaches it. The locations table's edit button (src/modules/admin-page/index.tsx:191) enters edit mode, yet that table renders no edit row and no save button (only the categories table does, :127-134).
- LoginPage.LoginPageState.HandleLogin: the success branch only logs a translated message to the console (src/modules/login-page/index.tsx:18). Console logging is not modelled, so an accepted pair changes nothing in the model.

# Library catalog front end — a Dafny model of its logic

The system is the web front end of a small library. Students browse the catalog, register or sign in, and look at their loans; an administrator adds, edits and deletes books. Almost all of the code is rendering. This project models the rest:

- the authentication provider (`useAuth`): its four published fields `user`, `session`, `studentProfile` and `loading`, and how the auth-state callback, the initial `getSession` result, the completion of a profile lookup, `signUp`, `signIn` and `signOut` change them;
- the login / registration form and its submit handler;
- the student portal's loan view (active vs. returned loans, overdue flag, title/author lookup);
- the admin panel's catalog operations and counters;
- the book search filter;
- the contact form;
- the record types and the fixture data set.

Remote calls, the clock and random numbers are parameters. Every remote call the provider makes goes into a log (`calls`). Remote results of the sign-up, insert, sign-in and sign-out calls are passed in as a `Remote<T>`, which is either `Resolved(value)` or `Rejected` (the promise threw). Two results have no `Rejected` case. A profile lookup that rejects makes `fetchStudentProfile` throw before it writes anything; the model covers it as a reply with an error, which also leaves the profile unchanged. A `getSession` that rejects never runs its continuation; the model covers it as an `InitialSession` event that never happens, so `loading` stays true until an auth change arrives. The `setTimeout(..., 0)` that defers the profile lookup after an auth-state change becomes a queue of pending timers (`scheduled`). `FireTimer` issues the lookup and moves it to `inFlight`. `CompleteFetch(k, reply)` settles lookup `k`, in any order.

Each page is one module (`AuthHook`, `StudentAuthPage`, `StudentsPage`, `AdminPage`, `BooksPage`, `ContactPage`, `MockData`). Three helper modules model JavaScript built-ins:

- `Seqs`: `filter` and `find`;
- `Strings`: ASCII `toLowerCase`, `includes`, `trim`, and `String(n)` for a natural number;
- `Wrappers`: `null`, settled promises and thrown errors.

Where the code updates state in place it is modelled as a class:

- `AuthProvider`, `StudentAuth`, `Admin`, `Books` and `Contact`;
- their methods change the fields step by step;
- their `ensures` clauses tie the new state to the old one.

For the provider, the transitions are also written as pure functions over `AuthState`. The class methods are proved equal to those functions. Lemmas over arbitrary event sequences (`Run`) prove the invariants.

Dates are the millisecond timestamps that `new Date("YYYY-MM-DD")` yields, i.e. midnight UTC. The fixture's ISO strings are stored as those numbers.

Behaviour worth noting:

- **Stale lookups.** A completed profile lookup is written whatever user it was issued for. `StaleProfileIsKept` shows a state where nobody is signed in but a profile is published.
- **All loans shown.** The portal lists every fixture loan; nothing selects the signed-in student's loans.
- **`loading` can end without a profile.** `loading` goes false when the first auth change or initial-session result arrives, not when the profile arrives.
- **Sign-out when the remote rejects.** If the remote sign-out rejects, nothing is cleared.

## Model

| member | source | states |
|---|---|---|
| `MockData.FixtureIdsDistinct` | src/data/mockData.ts:31-134 | book ids in the catalog are pairwise distinct, and so are loan ids |
| `MockData.FixtureCategories` | src/data/mockData.ts:21-104 | `categories` starts with `"All"`, has no repeats, and every book's category is a non-`"All"` entry |
| `MockData.FixtureLoansNameBooks` | src/data/mockData.ts:106-134 | every loan's `bookId` names a book of the catalog |
| `MockData.FixtureLoansMatchAvailability` | src/data/mockData.ts:31-134 | a book is unavailable iff an unreturned loan is for it, and every unreturned loan is for an unavailable book |
| `MockData.FixtureLoanDates` | src/data/mockData.ts:106-134 | no loan is due before its issue date |
| `AuthHook.UseAuth` | src/hooks/useAuth.tsx:150-156 | outside a provider the hook fails with its message; inside it returns the provider's value |
| `AuthHook.Initial` | src/hooks/useAuth.tsx:28-32 | mount state: consistent, `loading` true, nobody signed in, no profile, no timer or lookup pending |
| `AuthHook.AuthChanged` | src/hooks/useAuth.tsx:48-64 | the auth-change callback keeps `user` equal to the session's user, ends `loading`, issues no remote call, and either clears the profile or keeps it |
| `AuthHook.InitialSessionResolved` | src/hooks/useAuth.tsx:67-74 | the `getSession` continuation keeps consistency, ends `loading`, keeps the profile and the timers, and issues at most one lookup, logged and in flight |
| `AuthHook.TimerFired` | src/hooks/useAuth.tsx:55-57 | a firing timer takes the oldest pending user off the timer queue, puts that user's lookup in flight, logs `SelectProfile` for that user, and changes nothing published |
| `AuthHook.TimerFiredEffect` | src/hooks/useAuth.tsx:50-57 | the timer an auth change schedules, when it fires, issues the profile lookup for the user that auth change published and for no one else, and leaves the published fields as the auth change set them |
| `AuthHook.FetchCompleted` | src/hooks/useAuth.tsx:34-44 | a settled lookup leaves the in-flight set minus that one lookup; only the profile may change, and then to the returned data |
| `AuthHook.SignedUp` | src/hooks/useAuth.tsx:79-116 | `signUp` changes nothing published and only appends to the call log; it reports no error only when the registration succeeded without error, and a rejected registration propagates |
| `AuthHook.SignedIn` | src/hooks/useAuth.tsx:118-124 | `signIn` hands back the remote result and only logs one call |
| `AuthHook.SignedOut` | src/hooks/useAuth.tsx:126-131 | `signOut` resolves iff the remote call resolves, keeps consistency, and leaves `loading`, the timers and the lookups alone |
| `AuthHook.AuthProvider.constructor` | src/hooks/useAuth.tsx:28-32 | all fields null, `loading` true, listener subscribed and `getSession` issued |
| `AuthHook.AuthProvider.OnAuthStateChange` | src/hooks/useAuth.tsx:48-64 | the new state is the auth-change transition of the old one |
| `AuthHook.AuthProvider.OnInitialSession` | src/hooks/useAuth.tsx:67-74 | the new state is the initial-session transition of the old one |
| `AuthHook.AuthProvider.FetchStudentProfile` | src/hooks/useAuth.tsx:34-39 | issuing a lookup logs one `SelectProfile(userId)` call and records it as in flight, nothing else |
| `AuthHook.AuthProvider.FireTimer` | src/hooks/useAuth.tsx:55-57 | the oldest pending timer fires and issues the lookup for its user |
| `AuthHook.AuthProvider.CompleteFetch` | src/hooks/useAuth.tsx:40-44 | the new state is the lookup-completion transition of the old one |
| `AuthHook.AuthProvider.SignUp` | src/hooks/useAuth.tsx:79-116 | the new state and the result are those of the pure `signUp` flow |
| `AuthHook.AuthProvider.SignIn` | src/hooks/useAuth.tsx:118-124 | the new state and the result are those of the pure `signIn` flow |
| `AuthHook.AuthProvider.SignOut` | src/hooks/useAuth.tsx:126-131 | the new state and the result are those of the pure `signOut` flow |
| `AuthHook.AuthChangeSignedOut` | src/hooks/useAuth.tsx:50-62 | an auth change without a session clears session, user and profile and sets `loading` false, issuing no call |
| `AuthHook.AuthChangeSignedIn` | src/hooks/useAuth.tsx:50-62 | an auth change with a session publishes it and its user and sets `loading` false; it only queues a lookup for that user, issues no call, and keeps the profile |
| `AuthHook.InitialSessionEffect` | src/hooks/useAuth.tsx:67-74 | the initial session result publishes session and user, issues the lookup at once when a user exists, sets `loading` false, and never clears the profile |
| `AuthHook.FetchCompletedEffect` | src/hooks/useAuth.tsx:34-44 | a settled lookup changes the profile only when data came back without error, then to that data, with no check against the current user |
| `AuthHook.SignUpOutcome` | src/hooks/useAuth.tsx:79-116 | the registration error is returned with no insert; with a user, the insert's error is returned and nothing is rolled back; otherwise no error, also with no user; the row has the new user's id, the given fields, and the normalised phone |
| `AuthHook.PhoneColumnNull` | src/hooks/useAuth.tsx:107 | the stored phone is null iff the given one is absent or empty, and is the given one otherwise |
| `AuthHook.SignInEffect` | src/hooks/useAuth.tsx:118-124 | `signIn` returns the remote result unchanged and only logs the call |
| `AuthHook.SignOutEffect` | src/hooks/useAuth.tsx:126-131 | once the remote call returns, user, session and profile are null; a rejection leaves them; `loading` is untouched |
| `AuthHook.ProfileChangesOnlyBy` | src/hooks/useAuth.tsx:34-131 | the profile changes only through a lookup with data (to that data), a signed-out auth change or a completed sign-out (to null) |
| `AuthHook.StepConsistent` | src/hooks/useAuth.tsx:48-131 | every event keeps `user` equal to `session?.user ?? null` |
| `AuthHook.RunConsistent` | src/hooks/useAuth.tsx:48-131 | every event sequence keeps `user` equal to `session?.user ?? null` |
| `AuthHook.LoadingNeverReturns` | src/hooks/useAuth.tsx:32-74 | no event sequence sets `loading` back to true |
| `AuthHook.LoadingUntilResolved` | src/hooks/useAuth.tsx:32-74 | `loading` is true after a sequence iff it was true and no auth change or initial session result occurred |
| `AuthHook.FreshLoadWithoutSession` | src/hooks/useAuth.tsx:66-74 | a fresh load with no stored session ends with `loading` false and nobody signed in |
| `AuthHook.SignInThenProfile` | src/hooks/useAuth.tsx:34-64 | auth change, timer and lookup in turn publish the user and the returned profile, with exactly one lookup issued |
| `AuthHook.StaleProfileIsKept` | src/hooks/useAuth.tsx:34-74 | a lookup that settles after sign-out still publishes its profile while no user is signed in |
| `Strings.TrimEmptyIffBlank` | src/pages/StudentAuth.tsx:48-57 | `!s.trim()` holds iff every character of `s` is ECMAScript white space |
| `StudentAuthPage.RegistrationError` | src/pages/StudentAuth.tsx:47-65 | the full-name error iff the name is blank; the student-id error iff the name is not blank and the id is; no error iff neither is blank |
| `StudentAuthPage.FullNameCheckedFirst` | src/pages/StudentAuth.tsx:48-65 | a blank name yields the full-name error whatever the other fields hold |
| `StudentAuthPage.WhitespaceNameRejected` | src/pages/StudentAuth.tsx:48-56 | a name of spaces and a tab is rejected |
| `StudentAuthPage.WithFieldChangesOnlyThatField` | src/pages/StudentAuth.tsx:100-105 | an input change sets the named field and leaves the other four |
| `StudentAuthPage.StudentAuth.constructor` | src/pages/StudentAuth.tsx:12-20 | login mode, not loading, empty form |
| `StudentAuthPage.StudentAuth.ToggleMode` | src/pages/StudentAuth.tsx:241 | the mode flips and nothing else changes |
| `StudentAuthPage.StudentAuth.HandleInputChange` | src/pages/StudentAuth.tsx:100-105 | only the named field takes the value |
| `StudentAuthPage.StudentAuth.SetLoading` | src/pages/StudentAuth.tsx:28-96 | each `setLoading` call publishes its value and appends it to the loading log; mode, form and navigations stay |
| `StudentAuthPage.StudentAuth.HandleSubmit` | src/pages/StudentAuth.tsx:26-98 | login calls `signIn` with the raw email and password; registration with a blank name or id calls nothing and reports that error (name first); otherwise `signUp` gets the untrimmed fields; navigation iff no error; `loading` is set true then false on every path, twice on validation returns |
| `StudentsPage.BookTitle` | src/pages/Students.tsx:14-18 | the title shown is never empty, and unless it is the fallback it is the title of a book with that id |
| `StudentsPage.BookAuthor` | src/pages/Students.tsx:20-23 | the author shown is never empty, and unless it is the fallback it is the author of a book with that id |
| `StudentsPage.IsOverdue` | src/pages/Students.tsx:25-27 | defines overdue as a due instant strictly before `now` (no contract of its own; `OverdueFlipsAtDueDate` states its behaviour) |
| `StudentsPage.ActiveLoans` | src/pages/Students.tsx:29 | the active loans are a subsequence of the list and none is returned |
| `StudentsPage.ReturnedLoans` | src/pages/Students.tsx:30 | the returned loans are a subsequence of the list and all are returned |
| `StudentsPage.OverdueCount` | src/pages/Students.tsx:55-58 | the overdue counter is the number of active loans past due and never exceeds the active counter |
| `StudentsPage.LoansPartition` | src/pages/Students.tsx:29-30 | active and returned loans together are the loan list as a multiset, and their lengths sum to the total |
| `StudentsPage.LoansMembership` | src/pages/Students.tsx:29-30 | a loan is active iff listed and not returned, and returned iff listed and returned |
| `StudentsPage.OverdueFlipsAtDueDate` | src/pages/Students.tsx:25-27 | for a fixed due date, moving `now` from at-or-before to after it turns the overdue flag on |
| `StudentsPage.BookTitleLookup` | src/pages/Students.tsx:15-18 | the title is that of the first book with the id; the fallback appears iff no book matches or that title is empty (or is the fallback text) |
| `StudentsPage.BookAuthorLookup` | src/pages/Students.tsx:20-23 | the same rule for the author and its fallback |
| `StudentsPage.FixtureLoanView` | src/pages/Students.tsx:29-58 | on the fixture: loans 1–2 active, loan 3 returned, overdue counter 0, 1, 2 on three dates |
| `StudentsPage.FixtureActiveLoanBooks` | src/pages/Students.tsx:15-23 | on the fixture, loan 1 shows the title "1984" and loan 2 the author "Jane Austen" |
| `StudentsPage.FixtureLookupsNeverFallBack` | src/pages/Students.tsx:14-23 | on the fixture no loan's title or author lookup falls back to the "Unknown" text |
| `StudentsPage.LookupNeverFallsBack` | src/pages/Students.tsx:15-23 | when some book has the id and no book's title or author is empty or the fallback text, neither lookup shows a fallback |
| `StudentsPage.FixtureBooksNamed` | src/data/mockData.ts:31-104 | every fixture book has a non-empty title and author, neither equal to the fallback text |
| `Strings.IncludesIffOccurs` | src/pages/Books.tsx:16-17 | `includes` holds iff the query occurs at some index |
| `BooksPage.FilteredBooks` | src/pages/Books.tsx:14-21 | the shown books are a subsequence of the catalog in catalog order, and each matches the search and the category |
| `BooksPage.FilteredMembership` | src/pages/Books.tsx:14-21 | a book is shown iff its lower-cased title or author contains the lower-cased query and the category is `"All"` or its own |
| `BooksPage.InitialFiltersShowAll` | src/pages/Books.tsx:11-21 | with an empty query and `"All"` every book is shown |
| `BooksPage.FilteredIdempotent` | src/pages/Books.tsx:14-21 | filtering the result again with the same filters returns it unchanged |
| `BooksPage.Books.constructor` | src/pages/Books.tsx:11-12 | initial query empty, category `"All"` |
| `BooksPage.Books.SetSearchQuery` | src/pages/Books.tsx:45 | the query takes the input's value, the category stays |
| `BooksPage.Books.SelectCategory` | src/pages/Books.tsx:57 | the category takes the button's value, the query stays |
| `BooksPage.Books.ClearFilters` | src/pages/Books.tsx:94-97 | query `""`, category `"All"`, and every catalog is then shown whole |
| `AdminPage.ColorIndex` | src/pages/Admin.tsx:70 | the random draw always selects an entry of the palette |
| `AdminPage.FormIncomplete` | src/pages/Admin.tsx:61-81 | defines the shared guard of add and edit: some form field is empty (no contract of its own; `Admin.AddBook` and `Admin.EditBook` state its effect) |
| `AdminPage.NewBook` | src/pages/Admin.tsx:66-71 | the new book carries the form's four fields, is available, has a palette colour, and its id is the decimal digits of the clock reading |
| `Strings.DecimalInjective` | src/pages/Admin.tsx:67 | different clock readings give different `String(Date.now())` ids |
| `AdminPage.ApplyFormFields` | src/pages/Admin.tsx:86-92 | an edited book keeps id, availability and colour and takes the form's four fields |
| `AdminPage.ReplaceMatching` | src/pages/Admin.tsx:86-92 | editing keeps the length and, at every position, the id and availability |
| `AdminPage.ReplaceMatchingPointwise` | src/pages/Admin.tsx:86-92 | editing keeps the length; each position holds the edited book if its id matches and the old book otherwise |
| `AdminPage.RemoveById` | src/pages/Admin.tsx:100 | no remaining book has the deleted id |
| `AdminPage.RemoveByIdSpec` | src/pages/Admin.tsx:99-100 | delete keeps exactly the books with another id, in order, and shrinks the list by the number with that id |
| `AdminPage.AvailableCount` | src/pages/Admin.tsx:141 | the "Available" counter is the number of available books |
| `AdminPage.IssuedCount` | src/pages/Admin.tsx:148 | the "Issued" counter is the number of unavailable books |
| `AdminPage.AvailablePlusIssued` | src/pages/Admin.tsx:135-148 | available plus issued counters equal the total |
| `AdminPage.AddCountsAvailable` | src/pages/Admin.tsx:66-73 | an added book raises the available counter by one and leaves the issued counter |
| `AdminPage.CategoryOptions` | src/pages/Admin.tsx:115 | the select's choices are a subsequence of the categories, none of them `"All"` |
| `AdminPage.CategoryOptionsSpec` | src/pages/Admin.tsx:115 | the select never offers `"All"`, offers exactly the other entries, and on the fixture offers the six categories in order |
| `AdminPage.Admin.constructor` | src/pages/Admin.tsx:45-54 | the fixture catalog, no book being edited, an empty form |
| `AdminPage.Admin.ResetForm` | src/pages/Admin.tsx:56-58 | the form becomes four empty strings, nothing else changes |
| `AdminPage.Admin.SetField` | src/pages/Admin.tsx:178-221 | only the named form field takes the value |
| `AdminPage.Admin.AddBook` | src/pages/Admin.tsx:60-77 | an incomplete form changes nothing; otherwise exactly one book from the form, available, with the clock id and drawn colour is appended, and the form is reset |
| `AdminPage.Admin.EditBook` | src/pages/Admin.tsx:79-97 | no edited book or an incomplete form changes nothing; otherwise matching books take the form's fields, the edit ends and the form is reset |
| `AdminPage.Admin.DeleteBook` | src/pages/Admin.tsx:99-102 | the list becomes the books with another id |
| `AdminPage.Admin.OpenEditDialog` | src/pages/Admin.tsx:104-113 | the book is remembered and its four fields fill the form; the list is unchanged |
| `ContactPage.MissingRequired` | src/pages/Contact.tsx:43 | defines rejection as an empty name, email or message (no contract of its own; `SubjectIsOptional` and `Contact.HandleSubmit` state its effect) |
| `ContactPage.SubjectIsOptional` | src/pages/Contact.tsx:43 | the subject, empty or not, never changes whether the form is accepted |
| `ContactPage.BlankFieldsAreAccepted` | src/pages/Contact.tsx:43-46 | fields of spaces are accepted because the test is emptiness, an empty name is rejected |
| `ContactPage.Contact.constructor` | src/pages/Contact.tsx:34-39 | four empty fields |
| `ContactPage.Contact.SetField` | src/pages/Contact.tsx:115-154 | only the named field takes the value |
| `ContactPage.Contact.HandleSubmit` | src/pages/Contact.tsx:41-49 | sent iff name, email and message are all non-empty; a rejected form is unchanged, a sent one is reset to four empty strings |

## Left out

- Rendering, toasts' visual form, dialog open/close flags, routing internals and React hook mechanics (effect cleanup and unsubscribe, context plumbing other than the `useAuth` check). These are presentation, not logic. The toast a submission ends with is returned as a value. Navigation is a log of paths.
- The remote authentication and data service. It is a foreign system. Its replies are parameters, and the calls made to it are logged.
- Event-loop timing and promise interleaving. Only their order is modelled: the timer queue, settling lookups in any order, and inputs to `HandleSubmit` that stand for the replies of its awaited calls.
- The real auth-state events the service itself emits (for example after `signOut`). They arrive as separate `OnAuthStateChange` calls.
- Date-string parsing and date formatting. Dates are epoch milliseconds.
- `toLowerCase` outside ASCII. The model folds `A`–`Z` only.
- `Date.now()` and `Math.random()`. They are the parameters `now` and `random` (with `0 <= random < 1`).
- `src/pages/Index.tsx`, `src/components/Footer.tsx` and `src/components/BookCard.tsx`. They are pure presentation.
- `AuthHook.AuthProvider.OnInitialSession`: can be called more than once. The `getSession` continuation runs once per mount, but the model does not enforce this.

# B-Card client logic in Dafny

B-Card is a browser client for a directory of business cards. It talks to a
remote REST API and keeps a little state of its own. This project models the
client's pure logic as Dafny functions over immutable records and proves
properties of it:

- **Session store.** The persisted token, the `isAuthenticated` flag and the
  decoded `userData` claims. The transitions are the startup effect, `login`
  and `logout`. Token decoding is an uninterpreted parameter `decode`.
- **Role-gated visibility.** The links in the navigation bar and the footer.
  The controls on the home page's cards. The guards of the "my cards",
  favourites and admin sandbox pages.
- **List reconciliation after a server reply.** The title search filter.
  Replace-by-id after a like, an update or a business-status patch.
  Remove-by-id after a delete. Prepend after a create. The "liked by me"
  filter of the favourites page.
- **Forms.** The field rules of registration, profile, login and the card
  dialog. These cover the phone and password patterns, required fields and
  length bounds. All four forms share the submit gate "dirty and valid".
  The dialogs' toggle, submit and close handlers are modelled too.
- **Theme.** The stored-or-"light" initial theme and the light/dark toggle.

A server reply is an input value. For a card, a user or a business status,
`Some(x)` is the returned value and `None` is a rejected request, which
changes no list. For a delete, the input is a success flag.

Modules: one per source component (`AuthContext`, `ThemeContext`,
`Navigation` for the navbar and footer, `Home`, `MyCards`, `Favorites`,
`Sandbox`, `Register`, `Profile`, `LoginModal`, `CardModal`), and six shared
ones. `Entities` holds the records. `Seqs` is a generic map and filter with
frame properties. `Text` is ASCII lowering and `String.prototype.includes`.
`CardLists` is the list reconciliation shared by the card pages. `Rules`
holds the field rules and pattern matchers. `Gating` relates page guards to
links.

Some behaviour follows the code rather than a general description of the app:

- The startup effect tests `if (token)`. A stored empty token is falsy, so
  the session stays anonymous although a token is stored. The invariant
  "authenticated iff a token is stored" therefore holds after startup only
  when the stored token is not `""` (`AuthContext.StartupStorageMatch`). Once
  any login or logout has happened, it always holds
  (`AuthContext.RunMatchesStorage`).
- The home page's delete and edit buttons test `userData.isAdmin` alone, not
  `isAuthenticated`. In every consistent session this makes no difference
  (`Home.AdminControlsNeedLogin`).
- The "my cards" page guards on login only. A regular user who opens it
  directly sees the grid, even though no link leads there
  (`Gating.MyCardsGuardWiderThanLink`).
- "Toggling a like twice restores membership" is decided by the server, not
  by this client. The client only replaces the card with whatever the server
  returns.

## Model

| member | source | states |
|---|---|---|
| AuthContext.FreshBeforeEffect | src/context/AuthContext.js:8-17 | `Fresh`, the session before the effect runs, is consistent for every decoder. It matches storage only when nothing is stored. `Startup` changes it exactly when the stored token is truthy. |
| AuthContext.ReloadRestoresSession | src/context/AuthContext.js:11-31 | What `Login` and `Logout` persist is what a reload restores: `Startup` on the token `Login(t)` stored rebuilds that same session when `t` is non-empty, and stays anonymous when `t` is "". `Startup` after `Logout` rebuilds the logged-out session. |
| AuthContext.StartupConsistent | src/context/AuthContext.js:8-17 | Startup yields a consistent session: authenticated means a stored token whose claims are shown; anonymous means empty claims. |
| AuthContext.LoginConsistent | src/context/AuthContext.js:19-22 | Login yields a consistent session in which authentication matches token storage. |
| AuthContext.LogoutConsistent | src/context/AuthContext.js:26-29 | Logout yields a consistent session in which authentication matches token storage. |
| AuthContext.StartupStorageMatch | src/context/AuthContext.js:12-14 | After startup, "authenticated iff a token is stored" holds exactly when the stored token is not the empty string. |
| AuthContext.LoginIgnoresPrevious | src/context/AuthContext.js:19-22 | `login(t)` gives the same session whatever the previous session was. |
| AuthContext.LogoutIdempotent | src/context/AuthContext.js:26-29 | Logging out twice equals logging out once. |
| AuthContext.LoginThenLogoutIsFreshStart | src/context/AuthContext.js:19-29 | Logging in and then out equals starting up with no stored token. |
| AuthContext.RunConsistent | src/context/AuthContext.js:8-31 | Startup followed by any sequence of logins and logouts leaves a consistent session. |
| AuthContext.RunPreservesConsistent | src/context/AuthContext.js:19-31 | Any sequence of logins and logouts (`Run`) preserves consistency. |
| AuthContext.RunMatchesStorage | src/context/AuthContext.js:19-31 | After at least one login or logout, "authenticated iff a token is stored" holds. |
| ThemeContext.ReloadShowsToggledTheme | src/context/ThemeContext.js:6-16 | A reload shows the theme the last toggle chose: `Initial` on what `Toggle` persisted gives back the toggled state. With nothing stored, `InitialTheme` is "light". |
| ThemeContext.ToggleTwice | src/context/ThemeContext.js:11 | From "light" or "dark", toggling twice returns the original theme. |
| ThemeContext.ToggleNormalises | src/context/ThemeContext.js:11 | An unknown stored theme becomes a known one after a single toggle. From then on, two more toggles return to it. |
| Navigation.NavbarItems | src/components/Navbar.jsx:41-102 | About is always shown. Favorites iff authenticated. My Cards iff authenticated and (admin or business). Sandbox iff authenticated and admin. Profile iff `userData._id` is truthy. Login and Register iff it is not. |
| Navigation.FooterItems | src/components/Footer.jsx:23-43 | Home is always shown. Favorites iff authenticated. My Cards iff authenticated and (admin or business). Sandbox iff authenticated and admin. |
| Navigation.NavbarByRole | src/components/Navbar.jsx:46-66 | By role: Favorites for every non-anonymous role, My Cards for business and admin, Sandbox for admin only. |
| Navigation.SandboxImpliesMyCards | src/components/Navbar.jsx:53-66 | Whenever Sandbox is offered, in the bar or the footer, My Cards is offered too. |
| Navigation.AccountEntryExclusive | src/components/Navbar.jsx:85-102 | Exactly one of the profile link and the login button is shown. Register always goes with Login. |
| Navigation.FooterAgreesWithNavbar | src/components/Footer.jsx:27-43 | For every session, the footer's Favorites, My Cards and Sandbox visibility equals the bar's. |
| Navigation.ProfileImpliesAuthenticated | src/components/Navbar.jsx:85 | In a consistent session, the profile link appears only together with the Favorites link. |
| Gating.SandboxGuardMatchesLink | src/pages/Sandbox.jsx:62 | The sandbox renders its admin view (`ShowsAdminView`) exactly for the sessions offered the Sandbox link, which are exactly the Admin-role sessions. |
| Gating.FavoritesGuardMatchesLink | src/pages/Favorites.jsx:54 | The favourites grid is rendered exactly for the sessions offered the Favorites link, which are exactly the non-anonymous sessions. |
| Gating.MyCardsGuardWiderThanLink | src/pages/MyCards.jsx:98 | `MyCards.View` shows the page's list exactly for non-anonymous sessions. Every session offered My Cards sees it, and so does a regular user, who is not offered the link. |
| Seqs.ReplaceWhere | src/pages/Home.jsx:45-47 | The length is kept. Matching positions get the rewritten element. All other positions keep theirs. |
| Seqs.Filter | src/pages/Home.jsx:57 | Keeps exactly the elements that satisfy the predicate, and is never longer than its input. |
| Seqs.FilterCount | src/pages/Home.jsx:57 | A kept element appears as often as in the input. A dropped element does not appear. |
| Seqs.FilterSubsequence | src/pages/Home.jsx:57 | The filtered list is a subsequence of the input, so relative order is kept. |
| Seqs.FilterAppend | src/pages/Home.jsx:57 | Filtering a concatenation equals concatenating the filtered parts. |
| Seqs.FilterKeepsAll | src/pages/Home.jsx:57 | A filter whose predicate holds for every element returns its input unchanged. |
| Seqs.FilterAgreeing | src/pages/Home.jsx:33-35 | Two predicates that agree everywhere filter to the same list. |
| Seqs.FilterFilter | src/pages/Favorites.jsx:21-23 | Filtering by p and then by q equals one filter by "p and q". |
| Seqs.FilterIdempotent | src/pages/Home.jsx:57 | Filtering twice by the same predicate equals filtering once. |
| Text.LowerChar | src/pages/Home.jsx:34 | ASCII upper-case letters map to their lower-case letter. Every other character is unchanged. |
| Text.Lower | src/pages/Home.jsx:34 | Same length, each character lowered, and no ASCII upper-case letter remains. |
| Text.LowerIdempotent | src/pages/Home.jsx:34 | Lowering twice equals lowering once. |
| Text.IncludesIffOccurs | src/pages/Home.jsx:34 | `Includes` holds iff the substring occurs at some index. |
| Text.IncludesWitness | src/pages/Home.jsx:34 | When `includes` succeeds, it yields an index where the substring occurs. |
| Text.OccursIncludes | src/pages/Home.jsx:34 | Every occurrence of the substring, at any index, makes `includes` succeed. |
| Text.IncludesEmpty | src/pages/Home.jsx:34 | Every string includes the empty string. |
| CardLists.SearchFilter | src/pages/Home.jsx:33-35 | Keeps exactly the cards whose lowered title contains the lowered term, with their multiplicity and in their original order. |
| CardLists.MatchesSearchMeaning | src/pages/Home.jsx:34 | A card passes `MatchesSearch` iff the lowered term occurs at some index of the lowered title. |
| CardLists.SearchEmptyKeepsAll | src/pages/Home.jsx:33-35 | An empty search term keeps every card. |
| CardLists.SearchIgnoresTermCase | src/pages/Home.jsx:34 | Searching for a term or its lower-case form gives the same list. |
| CardLists.ReplaceById | src/pages/Home.jsx:69-73 | The length is kept. Every card with the given id becomes the reply. Every other card is unchanged. |
| CardLists.ApplyLikeReply | src/pages/Home.jsx:44-48 | The length and the sequence of ids are kept. Only the cards with the returned card's id are replaced, and they are replaced by it. |
| CardLists.RemoveById | src/pages/Home.jsx:56-58 | No card with the id remains. Every other card remains with its multiplicity, in order. |
| CardLists.RemoveAbsentId | src/pages/Home.jsx:56-58 | Removing an id that no card carries leaves the list unchanged. |
| Home.MountShowsMatches | src/pages/Home.jsx:20-39 | The mount state (`Loaded`) shows exactly the fetched cards whose title matches the term, and every fetched card for the empty term. The mount fetch and a later re-run (`Refetched`) agree: refetching a freshly mounted page gives the page mounted with the new reply and term. |
| Home.Refetched | src/pages/Home.jsx:29-39 | A search change replaces only the list, with the filtered fetch. The selected card and both dialog flags keep their values. |
| Home.EditSurvivesRefetch | src/pages/Home.jsx:29-79 | A search change while the edit dialog is open keeps the selection. The submit still replaces exactly the selected card's id in the new list. |
| Home.OnLikeReply | src/pages/Home.jsx:41-51 | A reply replaces exactly the cards with its id and keeps the length. A rejection changes nothing. |
| Home.DeleteSelectedCard | src/pages/Home.jsx:52-63 | After the trash button on card `c` (`SelectForDelete`) and Confirm, success removes every card with `c`'s id and keeps every other card with its multiplicity. Failure keeps the list. Cancel (`CancelConfirm`) keeps the list. The confirmation is closed in every case. |
| Home.EditSelectedCard | src/pages/Home.jsx:65-79 | After the pencil button on card `c` (`SelectForEdit`), a submitted reply replaces exactly the cards with `c`'s id, keeps the length and closes the dialog. |
| Home.OnDeleteReply | src/pages/Home.jsx:52-63 | The Confirm button closes the confirmation. On success, a card remains iff it was there and does not have the current card's id (`CurrentId`). Every other card keeps its multiplicity and order. On failure, nothing changes. |
| Home.OnEditSubmitted | src/pages/Home.jsx:65-79 | The dialog is closed whatever the server answered. A reply replaces exactly the cards with the current id and keeps the length. A rejection changes no card. |
| Home.ControlsByRole | src/pages/Home.jsx:86-179 | For a consistent session, the delete and edit buttons of `Controls` appear iff the role is Admin. The like button appears iff the role is not Anonymous. A filled heart implies a like button. |
| Home.AdminControlsNeedLogin | src/pages/Home.jsx:142 | In a consistent session, admin controls only appear together with the like button, that is, only when logged in. |
| MyCards.MountShowsMatches | src/pages/MyCards.jsx:20-40 | The mount state (`Loaded`) shows exactly the fetched cards whose title matches the term, and every fetched card for the empty term. The mount fetch and a later re-run (`Refetched`) agree: refetching a freshly mounted page gives the page mounted with the new reply and term. On the mounted page, where `currentCard` is still `null`, a submit from the "+" tile as written prepends the created card. |
| MyCards.Refetched | src/pages/MyCards.jsx:30-40 | A search change replaces only the list, with the filtered fetch. `currentCard` and both dialog flags keep their values. |
| MyCards.OnLikeReply | src/pages/MyCards.jsx:42-52 | A reply replaces exactly the cards with its id and keeps the length. `currentCard` and both dialog flags keep their values. A rejection changes nothing. |
| MyCards.OnDeleteReply | src/pages/MyCards.jsx:54-65 | The Confirm button closes the confirmation. On success, exactly the cards with the current id are removed, and every other card keeps its multiplicity and order. On failure, nothing changes. |
| MyCards.DeleteSelectedCard | src/pages/MyCards.jsx:54-65 | After the trash button on card `c` (`SelectForDelete`) and Confirm, success removes every card with `c`'s id and keeps every other card with its multiplicity. Failure or Cancel (`CancelConfirm`) keeps the list. `c` stays the current card. |
| MyCards.EditTargetsOpenedCard | src/pages/MyCards.jsx:173-180 | The pencil button on `c` (`OpenEdit`) opens the dialog prefilled from `c`. The submit replaces exactly the cards with `c`'s id, keeps the length and closes the dialog. |
| MyCards.OnSubmitReply | src/pages/MyCards.jsx:68-92 | The dialog closes in every case. With no current card, the created card is at index 0 and the old list follows unchanged. With a current card, the reply replaces exactly the cards with its id. A rejection changes no card. |
| MyCards.CreateTileAsWrittenUpdates | src/pages/MyCards.jsx:201-204 | After an edit, submitting from the "+" tile as written (`OpenCreateTileAsWritten`) updates the edited card, and the list does not grow. |
| MyCards.CreateTileDefectSurvivesRefetch | src/pages/MyCards.jsx:201-204 | Neither a search change nor a delete clears `currentCard`. After an edit and a refetch, the "+" tile still targets the edited card. After a delete, it targets the deleted card. Neither submit grows the list. |
| MyCards.CreateTileAsWrittenExample | src/pages/MyCards.jsx:201-204 | A concrete run: edit card "a", then create "Beta" from "+". The list holds one card, which is "a" retitled. |
| MyCards.CreateTileCreates | src/pages/MyCards.jsx:68-76 | From the intended tile (`OpenCreateTile`), a successful submit on any page state puts the new card first, keeps the old list after it and closes the dialog. |
| MyCards.Step | src/pages/MyCards.jsx:93-190 | An event leaves the page iff it is a click on a card's trash, pencil or heart button, because the click also reaches the card's `handelCardClick`. It leaves for that card's details page. Every other event stays on the page. |
| MyCards.StayingKeepsNoCurrent | src/pages/MyCards.jsx:26-204 | Starting with no current card, every run of events that stays on the page (`RunEvents`) ends with no current card: only the card buttons set `currentCard`, and they navigate away. |
| MyCards.CreateTileReachableCreates | src/pages/MyCards.jsx:68-76 | On every state reachable from the mount state without leaving the page, a successful submit from the "+" tile as written prepends the created card to the list. |
| MyCards.CreateTilePrefill | src/pages/MyCards.jsx:201-204 | As written, the "+" dialog opens prefilled with the card edited last. As intended, it opens blank. |
| Favorites.View | src/pages/Favorites.jsx:54-147 | "Please Login" iff anonymous. Otherwise the page shows exactly the cards liked by the user (`LikedBy`), each with its full multiplicity, in list order. |
| Favorites.OnLikeReply | src/pages/Favorites.jsx:29-39 | A reply replaces exactly the cards with its id and keeps the length. A rejection changes nothing. |
| Favorites.DisplayedAfterLoad | src/pages/Favorites.jsx:17-27 | For an authenticated user, the displayed cards are the fetched cards that match the term and are liked, in fetched order. |
| Favorites.UnlikedCardDisappears | src/pages/Favorites.jsx:29-65 | If a like reply no longer lists the user, no displayed card has that card's id. |
| Sandbox.OnPatchReply | src/pages/Sandbox.jsx:26-45 | On success, the user with the id takes the returned `isBusiness` and keeps every other field. All other users are unchanged, and the length, ids and admin flags are kept. A rejection changes nothing. |
| Sandbox.OnDeleteReply | src/pages/Sandbox.jsx:47-58 | On success, a user remains iff it was there and has a different id, with its multiplicity and in order. A failure changes nothing. |
| Sandbox.LabelIsLoginRole | src/pages/Sandbox.jsx:83-87 | The label `StatusLabel` gives a user is the role the navigation gives that user once logged in: "Admin User", "Business User" and "Normal User" exactly for roles Admin, Business and Regular. |
| Sandbox.PatchThenLabel | src/pages/Sandbox.jsx:29-40 | After a successful patch of a non-admin user, three things follow the returned status: the label, the next dialog title (`PatchDialogTitle`) and the toast (`PatchToast`). The toast announces an upgrade exactly when the label becomes "Business User". |
| Sandbox.AdminRowsAreInert | src/pages/Sandbox.jsx:83-125 | Both buttons are disabled (`ActionsDisabled`) exactly on the rows labelled "Admin User", so no action is offered against an admin. |
| Rules.MatchPhone | src/pages/Register.jsx:37-40 | The one-pass matcher accepts exactly `PhonePattern`, the regular expression `^05\d{8}$`: length 10, "05" first, then ASCII digits. |
| Rules.MatchPassword | src/pages/Register.jsx:42-49 | The one-pass matcher accepts exactly `PasswordPattern`: at least 9 characters, no line terminator, and a lower-case letter, an upper-case letter, a digit and one of `!@#$%^&*-`. |
| Rules.PhoneFieldIsPattern | src/pages/Register.jsx:37-40 | The required phone rule is the pattern alone, since the pattern rejects "". |
| Rules.PasswordFieldIsPattern | src/pages/Register.jsx:42-49 | `min(9)` and `required` add nothing to the password pattern. |
| Rules.PatternExamples | src/pages/Register.jsx:37-49 | "0521234567" and "Abcdefg1!" pass. A 07 prefix, nine digits, a missing upper-case letter and eight characters each fail. |
| Register.InitialDisabled | src/pages/Register.jsx:15-30 | The all-empty initial form fails `Register.Valid` and is not dirty. The button, disabled unless the shared `SubmitEnabled` gate (dirty and valid) holds, starts disabled. |
| Register.ValidFieldBounds | src/pages/Register.jsx:31-67 | A form `Register.Valid` accepts has names of 2..256 characters (middle optional), a 10-character phone starting "05", a password of at least 9 characters, a checked e-mail, a house number of 1..256 and an optional state of 2..256. |
| Profile.InitialFrom | src/pages/Profile.jsx:27-48 | The initial password is always "". With nothing fetched, every field is "". |
| Profile.InitialRoundTrip | src/pages/Profile.jsx:27-48 | Writing the initial values back into the fetched user gives that user back, so each field copies the user's field. |
| Profile.InitialNeverValid | src/pages/Profile.jsx:35-79 | For every fetched user, the freshly loaded form fails `Profile.Valid`, because the password is required and empty. So Save (`SaveDisabled`, the negated shared gate) starts disabled. |
| Profile.StricterThanRegister | src/pages/Profile.jsx:50-124 | Every form the profile schema accepts is also accepted by the registration schema. The phone, e-mail and password rules are the same. |
| Profile.HouseNumberExample | src/pages/Profile.jsx:113-117 | A one-character house number passes registration but fails the profile schema. |
| Profile.SavedValuesBecomeInitial | src/pages/Profile.jsx:125-132 | When the server stores what was submitted, `OnSaveReply` makes the saved values the next initial values, except the password, which is never prefilled. Editing ends, and Save is disabled again until a password is typed. |
| Profile.ToggleEditTwice | src/pages/Profile.jsx:135 | Toggling edit twice (`ToggleEdit`) restores the page. |
| LoginModal.ToggleTwice | src/components/LoginModal.jsx:16-19 | Toggling twice (`Toggle`) restores the open flag and leaves an empty form. After any toggle, submit (`SubmitDisabled`) is disabled. |
| LoginModal.LoginReplyConsistent | src/components/LoginModal.jsx:37-47 | From a consistent session, `OnLoginReply` keeps the session consistent. A non-empty reply leaves "authenticated iff a token is stored". An empty reply leaves the session as it was. |
| LoginModal.SuccessfulLoginCloses | src/components/LoginModal.jsx:40-43 | From an open dialog, a non-empty reply closes it, empties the form, stores the token and authenticates with its claims. |
| LoginModal.BlankDisabled | src/components/LoginModal.jsx:21-36 | The empty form fails `LoginModal.Valid` and is not dirty, so it cannot be submitted. |
| CardModal.InitialFrom | src/components/createCardModal.jsx:11-30 | With no current card, every initial field is "". |
| CardModal.InitialRoundTrip | src/components/createCardModal.jsx:11-30 | Writing the initial values back into the current card gives that card back, so each field mirrors the card's field. |
| CardModal.FreeFieldsIgnored | src/components/createCardModal.jsx:31-46 | Description, e-mail, web, state, house number and zip never change `CardModal.Valid`. |
| CardModal.SubmitDescribesCard | src/components/createCardModal.jsx:9-50 | `Submit` hands the page values that describe the edited card. An untouched dialog opened for `c` (`Reinitialize`) sends `c` back unchanged. An edited title is exactly what changes. |
| CardModal.ResetDisablesDone | src/components/createCardModal.jsx:9-56 | After opening (`Reinitialize`), submitting (`Submit`) or closing (`Close`), Done (`DoneDisabled`) is disabled until the next edit. Closing hides the dialog. |
| CardModal.BlankInvalid | src/components/createCardModal.jsx:38 | A blank dialog is invalid because the title is required. |

## Left out

- HTTP calls in `src/services/userService.js` and `src/services/cardService.js`, including registration's register-then-login chaining. Only their results are modelled, as input values.
- Token decoding is a parameter `decode`. A token that fails to decode (the library throws) is not modelled.
- The library's e-mail and URL checks are the uninterpreted `Checks.isEmail` and `Checks.isUrl`. The form library's `dirty` is "values differ from initial values". Its `isValid` is "the schema accepts the values". Touched-field bookkeeping and error messages are not modelled.
- Text.Lower: lowers only ASCII letters, while `toLowerCase` follows Unicode case mapping, which can also change a string's length.
- Rules.MatchPassword: counts characters, while the pattern and `min` count UTF-16 code units. A character outside the Basic Multilingual Plane therefore counts once here but twice in the source. The same holds for every length bound of the form rules.
- Fields the server may send as numbers (house number, zip) are strings here, as the forms hold them.
- Promise ordering, the 50 ms theme fade, document class and attribute changes, toasts, navigation calls and styling.
- Click bubbling on the card pages, outside `MyCards.Step`. No page stops the propagation of a click on a card's trash, pencil or heart button. The click therefore also reaches the card's own `handelCardClick` (Home.jsx:93, MyCards.jsx:114, Favorites.jsx:71), which navigates to the card details page and unmounts the list page. Only the "my cards" page models it, in `MyCards.Step`. `Home.DeleteSelectedCard`, `Home.EditSelectedCard`, `Home.EditSurvivesRefetch`, `MyCards.DeleteSelectedCard`, `MyCards.EditTargetsOpenedCard`, `Favorites.UnlikedCardDisappears` and every `MyCards.CreateTile*` lemma except `MyCards.CreateTileReachableCreates` describe what the handlers do once they run. They do not describe what a user can reach while the clicks bubble.
- The routing table (`src/App.js`), the static about page, the search bar (it only sets the term) and the card details page. These are presentation only. The confirmation dialog appears only through its effect: its Confirm button runs the page's delete and closes it (`Home.OnDeleteReply`), and its other buttons close it (`Home.CancelConfirm`).
- The profile page's initial fetch (`getUserById` when authenticated). It is I/O whose result only sets `fullUserData`, the `fetched` field of `Profile.ProfilePage`; what the form then shows is `Profile.InitialFrom`.
- The profile page's delete-account handler. It is I/O followed by `logout`, which is modelled.
- The sandbox's confirmation dialog and its stored action. Its Confirm button runs the chosen handler, modelled as `Sandbox.OnPatchReply` and `Sandbox.OnDeleteReply`.

## Findings

| source | as written | input that shows it | evidently intended | confidence | as-written member | corrected member |
|---|---|---|---|---|---|---|
| src/pages/MyCards.jsx:201-204 | The "+" tile only opens the dialog and leaves `currentCard` as it was. | Edit card "a", then click "+" and submit a new card. The dialog opens prefilled with "a", the submit updates "a", and no card is created. This is reachable only once the card buttons stop their click from bubbling. As written, the pencil click also navigates to the card details page, so the page unmounts and `currentCard` is lost (`MyCards.CreateTileReachableCreates`). | The "+" tile clears `currentCard`, so the dialog opens blank and a submit creates and prepends a card. | not executed; low (latent: masked by the bubbling click) | MyCards.CreateTileAsWrittenUpdates | MyCards.CreateTileCreates |

# RailMatch rules, modelled in Dafny

RailMatch is a marketplace for rail freight. Shippers post transport requests, carriers (executors) bid on them, a shipper accepts one bid, and a chat opens between the two. The application is a Next.js front end on a hosted backend (Postgres, auth, realtime). It has no algorithmic centre; what can be stated and proved is its rule sets. This project models these:

- **The accept-bid cascade** (`lib/actions.ts`). Four ordered calls mark the bid accepted, reject its siblings, look up the bid's owner, and close the request. They run over `bids` and `requests` tables held as maps by a `Backend` class. The method is proved equal to a function `Cascade`, and the lemmas are stated about `Cascade`: what changes, what does not, the state after each failure, and one accepted bid per request.
- **Request validation** (`lib/validations.ts`): the seven field rules of the request schema.
- **The route guard** (`middleware.ts`): the session built from the two cookies, and the redirect decision. This includes a proof that no redirect leads to another redirect.
- **The client redirect rules** of `app/dashboard/page.tsx`, `app/dashboard/admin/page.tsx` and `src/app/page.tsx`, and how they interact with the guard.
- **The four authentication forms.** Their field checks and their error maps are built one check at a time. Editing a field clears its error, and each submit has its outcome. They share one email rule, which is proved equal to the language of `^[^\s@]+@[^\s@]+\.[^\s@]+$`.
- **The authentication page's mode machine** (`components/auth/AuthPage.tsx`).
- **The authentication helpers** (`lib/auth.ts`): first-match error translation, the profile lookup, and the sign-up that creates the profile.
- **Both authentication providers**, with their session and profile state. Also the profile endpoint (`app/api/auth/profile/route.ts`).
- **The dashboards.** This covers:
  - the shipper dashboard's list, which prepends new requests, and its badges;
  - the bids panel: amount checks, the actions offered by status and role, status colours, and state resets;
  - the bid dialog's guard, the order of its reset steps, and its disabled button;
  - the chat panel's list extraction, its first-match chat lookup, realtime appends, and the send guard.

Every backend call is a parameter of the operation that makes it. A write's reply is `Done`, `Failed` (the call returned an error object) or `Threw`; a call that failed or threw applies no write. `parseFloat` and `Number` are also parameters: `string -> Option<real>`, where `None` stands for NaN. Roles and statuses are strings, spelled exactly as the code spells them. There are two schemas, and they stay apart:

- the `lib` side uses `profiles`, the roles shipper, carrier and admin, and lower-case statuses (`LibSchema`);
- the `src` side uses `users`, the roles OWNER and EXECUTOR, and upper-case statuses (`SrcSchema`).

Each file holds one module. `common.dfy` holds the JavaScript string primitives: the `\s`/`trim` whitespace class of ECMAScript, `trim`, `includes`, `startsWith`, and the UTF-16 `length`. `forms.dfy` holds what the forms share. Every other file models one source file.

## Behaviour the proofs bring out

- `acceptBid` never checks that `bidId` belongs to `requestId`. Given a bid of another request, it reports success and closes the request with that bid's owner. It leaves none of the request's own bids accepted (`Actions.ForeignBidLeavesNoneAccepted`).
- When the bid does not exist, `acceptBid` first rejects every bid of the request. Only then does its lookup fail (`Actions.UnknownBidRejectsAll`).
- When the request does not exist, `acceptBid` still reports success (`Actions.UnknownRequestStillSucceeds`).
- `acceptBid` writes the status `'closed'` and an `accepted_owner_id`. The `request_status` enum of the type file has no `'closed'`, and its row type has no `accepted_owner_id`. The model writes what the code writes.
- The description of the application speaks of three writes that reject only the *pending* siblings. The code makes four calls: three writes and a lookup between the second and the third. Its second write rejects every other bid of the request, whatever that bid's status. The model follows the code.
- The target price rule is `min(0)`, and its message calls the price positive. A price of zero is accepted (`Validations.BlankRouteAndZeroPricePass`).
- Suppose the middleware finds a session but no profile row, while the client provider does find the profile. The dashboard entry page sends the user to the role area, and the middleware sends them back to the entry page, again and again (`Pages.NoServerRoleBouncesBack`).
- In the `src` provider, a failed `users` lookup keeps the previous row, even when a different user signed in (`SrcAuthProvider.StaleRowSurvivesFailedLookup`).
- `createRequest` reports every exception as a validation error (`Actions.Backend.CreateRequest`).

## Model

| member | source | states |
|---|---|---|
| Common.TrimStart | components/auth/SignUpForm.tsx:53 | the result is a suffix of the input; everything removed is whitespace; the result starts with a non-whitespace character or is empty |
| Common.TrimEnd | components/auth/SignUpForm.tsx:53 | the result is a prefix of the input; everything removed is whitespace; the result ends with a non-whitespace character or is empty |
| Common.BlankIffTrimEmpty | components/auth/SignUpForm.tsx:53 | `!s.trim()` holds exactly when every character of `s` is whitespace |
| Common.TrimIsInfix | src/components/dashboard/ChatPanel.tsx:124 | the trimmed text is a slice of the input, with only whitespace cut off on either side |
| Common.JsLength | components/auth/SignUpForm.tsx:61 | the UTF-16 length lies between the number of code points and twice that number, and equals the number of code points when none lies above U+FFFF |
| Common.JsLengthOfChar | components/auth/SignUpForm.tsx:61 | one character counts one code unit, or two above U+FFFF |
| Common.JsLengthConcat | components/auth/SignUpForm.tsx:61 | the length of a concatenation is the sum of the lengths, so with `JsLengthOfChar` the length of every string is fixed |
| Common.StartKeepsNonBlank | src/components/dashboard/ChatPanel.tsx:115-124 | a non-blank text keeps a non-whitespace first character after its leading whitespace is removed |
| Common.EndKeepsFirst | src/components/dashboard/ChatPanel.tsx:124 | removing trailing whitespace keeps a non-whitespace first character |
| EmailRule.ValidImpliesPattern | components/auth/SignUpForm.tsx:55 | every address the rule accepts matches the regular expression |
| EmailRule.PatternImpliesValid | components/auth/SignUpForm.tsx:55 | every string the regular expression matches is accepted by the rule |
| EmailRule.ValidIffMatchesPattern | components/auth/SignUpForm.tsx:55 | the rule and the regular expression accept the same strings |
| EmailRule.AcceptsSimpleAddress | components/auth/SignUpForm.tsx:55 | `a@b.c` is accepted |
| EmailRule.RefusesTwoAts | components/auth/SignInForm.tsx:39 | a second '@' is refused, even when both halves look like addresses |
| Forms.EmailError | components/auth/SignUpForm.tsx:53-57 | there is no error exactly when the rule accepts; a blank address gets "required"; any other refused address gets "invalid" |
| Forms.NewPasswordError | components/auth/SignUpForm.tsx:59-63 | there is no error exactly when the length is at least 6; an empty password gets "required"; a short one gets "too short" |
| Forms.ConfirmationError | components/auth/SignUpForm.tsx:65-69 | there is no error exactly when the confirmation is present and equal; an empty one gets "required"; a different one gets "passwords differ" |
| Forms.ClearOnEdit | components/auth/SignUpForm.tsx:45-47 | the edited field no longer shows an error; the keys stay; every other entry is unchanged |
| Forms.Truthy | components/auth/SignUpForm.tsx:101-102 | `value \|\| undefined`: absent exactly for the empty string, otherwise the value itself |
| Forms.ErrorsAfterCall | components/auth/SignUpForm.tsx:93-118 | after a call, the only key is `general`, and it is present exactly when the call reported an error or threw |
| SignUpForm.SignUpErrors | components/auth/SignUpForm.tsx:50-82 | a field has an entry exactly when it is checked and its check fails, and the entry is that check's message |
| SignUpForm.SignUpErrorsByField | components/auth/SignUpForm.tsx:53-79 | per field: the condition under which the entry is present, and the message of the step that failed; no message is empty |
| SignUpForm.ValidIff | components/auth/SignUpForm.tsx:51-82 | the map is empty exactly when all five rules hold |
| SignUpForm.AdminAndPhoneUnchecked | components/auth/SignUpForm.tsx:75-79 | an administrator is never asked for a company; the phone and the role are never checked |
| SignUpForm.Payload | components/auth/SignUpForm.tsx:96-103 | the sign-up call gets the typed data, with an empty company and an empty phone left out |
| SignUpForm.RoleLabel | components/auth/SignUpForm.tsx:124-135 | an unknown role is shown as itself; a known role gets a non-empty label that is not itself a role name |
| SignUpForm.RoleLabelInjective | components/auth/SignUpForm.tsx:124-135 | distinct known roles get distinct labels |
| SignUpForm.Form.constructor | components/auth/SignUpForm.tsx:17-29 | empty fields, role 'shipper', no errors |
| SignUpForm.Form.AdoptRoleParam | components/auth/SignUpForm.tsx:33-38 | a role parameter is adopted only when it is shipper, carrier or admin; otherwise the role is kept |
| SignUpForm.Form.HandleChange | components/auth/SignUpForm.tsx:40-48 | only the named input changes, and only its error is cleared |
| SignUpForm.Form.ValidateForm | components/auth/SignUpForm.tsx:50-83 | the shown errors become `SignUpErrors`; the result is true exactly when that map is empty |
| SignUpForm.Form.HandleSubmit | components/auth/SignUpForm.tsx:85-122 | an invalid form sends nothing; a valid one sends `Payload`; the result sets either `general` or the success message and the next step (`onSuccess`, else sign-in); loading ends false |
| SignInForm.SignInErrors | components/auth/SignInForm.tsx:34-49 | the email rule as in sign-up; the password only has to be present; each entry has the message of its failed step |
| SignInForm.RegisteredCredentialsPass | components/auth/SignInForm.tsx:37-45 | credentials that pass the registration checks on email and password pass sign-in |
| SignInForm.ShortPasswordPasses | components/auth/SignInForm.tsx:43-45 | a one-character password is not refused, although registration refuses it |
| SignInForm.Form.constructor | components/auth/SignInForm.tsx:14-19 | empty fields, no errors |
| SignInForm.Form.HandleChange | components/auth/SignInForm.tsx:24-32 | only the named input changes, and only its error is cleared |
| SignInForm.Form.ValidateForm | components/auth/SignInForm.tsx:34-49 | the shown errors become `SignInErrors`, and the form is valid exactly when none is left |
| SignInForm.Form.HandleSubmit | components/auth/SignInForm.tsx:51-78 | an invalid form makes no call; an error sets only `general`; a success calls `onSuccess` if given, else navigates to `/dashboard` |
| ResetPasswordForm.ResetErrors | components/auth/ResetPasswordForm.tsx:30-47 | password and confirmation rules, each entry with the message of its failed step |
| ResetPasswordForm.SameRulesAsSignUp | components/auth/ResetPasswordForm.tsx:33-43 | both fields get exactly the entries and messages that registration gives them |
| ResetPasswordForm.Form.constructor | components/auth/ResetPasswordForm.tsx:8-14 | empty fields, no errors, no message |
| ResetPasswordForm.Form.HandleChange | components/auth/ResetPasswordForm.tsx:20-28 | only the named input changes, and only its error is cleared |
| ResetPasswordForm.Form.ValidateForm | components/auth/ResetPasswordForm.tsx:30-47 | the shown errors become `ResetErrors`; the form is valid exactly when that map is empty |
| ResetPasswordForm.Form.HandleSubmit | components/auth/ResetPasswordForm.tsx:49-75 | an invalid form makes no call; a success sets the message and targets `/auth/signin`; an error sets `general` |
| ForgotPasswordForm.ForgotErrors | components/auth/ForgotPasswordForm.tsx:29-40 | only the email can have an entry, exactly when the rule refuses it: "required" when blank, "invalid" otherwise |
| ForgotPasswordForm.AfterSent | components/auth/ForgotPasswordForm.tsx:60-66 | `onSuccess` is preferred, then `onBackToSignIn`, and with neither nothing is called |
| ForgotPasswordForm.Form.constructor | components/auth/ForgotPasswordForm.tsx:12-15 | empty address, no errors, no message |
| ForgotPasswordForm.Form.HandleChange | components/auth/ForgotPasswordForm.tsx:19-27 | stores the address and clears a shown email error |
| ForgotPasswordForm.Form.ValidateForm | components/auth/ForgotPasswordForm.tsx:29-40 | the shown errors become `ForgotErrors`; the result is true exactly when the rule accepts |
| ForgotPasswordForm.Form.HandleSubmit | components/auth/ForgotPasswordForm.tsx:42-73 | an invalid form makes no call; a valid submit clears the earlier success message; then the reply decides between `general` and the message with `AfterSent` |
| AuthPage.Toggled | components/auth/AuthPage.tsx:18-20 | the result is sign-up exactly when the mode was sign-in; toggling never yields forgot |
| AuthPage.Step | components/auth/AuthPage.tsx:18-28 | forgot-password always leads to forgot, back always to sign-in, toggle to `Toggled` |
| AuthPage.ToggleTwice | components/auth/AuthPage.tsx:19 | toggling twice is the identity exactly on sign-in and sign-up; from forgot it ends on sign-up |
| AuthPage.Rendered | components/auth/AuthPage.tsx:34-54 | each mode renders exactly one form, the one for that mode |
| AuthPage.Offered | components/auth/AuthPage.tsx:35-53 | only the forgot form gets the back callback; only the sign-in form gets the forgot-password callback |
| AuthPage.ForgotOnlyFromSignIn | components/auth/AuthPage.tsx:34-54 | the forgot mode is reached only from sign-in, and every callback the forgot form offers leads back to sign-in |
| AuthPage.Page.constructor | components/auth/AuthPage.tsx:15-16 | the mode starts at `initialMode`, which defaults to sign-in |
| AuthPage.Page.HandleToggleMode | components/auth/AuthPage.tsx:18-20 | the mode becomes `Toggled` of the old mode |
| AuthPage.Page.HandleForgotPassword | components/auth/AuthPage.tsx:22-24 | the mode becomes forgot |
| AuthPage.Page.HandleBackToSignIn | components/auth/AuthPage.tsx:26-28 | the mode becomes sign-in |
| Validations.StringIssues | lib/validations.ts:4-6 | no issue exactly when the value is a non-empty string (whitespace counts); at most one issue |
| Validations.NumberIssues | lib/validations.ts:8 | no issue exactly when the value is a number at least the bound; at most one issue |
| Validations.EnumIssues | lib/validations.ts:7 | no issue exactly when the value is one of the listed strings |
| Validations.Parse | lib/validations.ts:3-11 | accepted exactly when all seven field rules hold, and the accepted input carries the given values; a rejection lists between one and seven issues |
| Validations.BlankRouteAndZeroPricePass | lib/validations.ts:4-10 | a route of spaces passes, and so does a target price of zero |
| Validations.FirstIssueIsRouteFrom | lib/validations.ts:4 | issues come in the order of the schema's keys; an empty origin is reported first |
| Actions.SetBidStatus | lib/actions.ts:93-96 | the row with the id, if one exists, gets the status; every other row and the key set are unchanged |
| Actions.RejectSiblings | lib/actions.ts:104-108 | every bid of the request other than `bidId` becomes rejected, whatever its status; nothing else changes |
| Actions.CloseRequest | lib/actions.ts:128-134 | the request, if it exists, is closed with the owner; the other requests are unchanged |
| Actions.FirstWriteFailureChangesNothing | lib/actions.ts:93-101 | a failed first write leaves both tables as they were and returns its message |
| Actions.SuccessEffects | lib/actions.ts:93-134 | success needs all four replies to succeed and the bid to exist; the bid is then accepted, its siblings rejected, and the request closed with the bid's owner |
| Actions.CascadeFrame | lib/actions.ts:93-134 | no row appears or disappears; bids of other requests (except `bidId`) and other requests keep their contents; only the status and the accepted owner change |
| Actions.LaterFailureKeepsAcceptance | lib/actions.ts:98-139 | after a later failure the bid stays accepted, the sibling rejection stays once made, the requests are untouched, and the result is the failed step's own message (or the generic one when that call threw) |
| Actions.UnknownBidRejectsAll | lib/actions.ts:104-125 | with an unknown bid, every bid of the request is rejected before the lookup fails |
| Actions.ExactlyOneAccepted | lib/actions.ts:93-108 | when the bid belongs to the request, a success leaves exactly one accepted bid in that request |
| Actions.ForeignBidLeavesNoneAccepted | lib/actions.ts:90-134 | with a bid of another request, a success leaves none of the request's own bids accepted |
| Actions.UnknownRequestStillSucceeds | lib/actions.ts:128-143 | an unknown request is not an error |
| Actions.NewRequest | lib/actions.ts:11-15 | the stored row is the validated input with the placeholder shipper, status 'active' and no accepted owner |
| Actions.Backend.constructor | lib/actions.ts:9-10 | the tables start at the given contents |
| Actions.Backend.CreateRequest | lib/actions.ts:5-30 | a schema failure stores nothing and returns the validation error; an insert error returns the creation error; an exception returns the validation error; a success stores `NewRequest` |
| Actions.Backend.AcceptBid | lib/actions.ts:90-148 | the new tables and the result are those of `Cascade` for the old tables and the replies |
| Middleware.BuildSession | middleware.ts:13-39 | without both cookies there is no session; otherwise a session exists exactly when the user is found, and it carries the profile's role when a row was found |
| Middleware.Guard | middleware.ts:41-82 | without a session, `/dashboard…` redirects to sign-in with `redirectTo`; with one, the auth routes redirect to `/dashboard`, and a role area without its role redirects to `/dashboard`; everything else passes |
| Middleware.SingleRoute | middleware.ts:51 | `some(startsWith)` over one route is `startsWith` of that route |
| Middleware.AuthRoutesAvoidDashboard | middleware.ts:46 | no auth route path is under `/dashboard` |
| Middleware.NoRedirectLoop | middleware.ts:51-80 | every redirect target passes the guard for the same session |
| Middleware.NoProfileNoRole | middleware.ts:32-79 | a session without a profile is sent back from all three role areas but passes on `/dashboard` |
| Middleware.OwnAreaAdmitted | middleware.ts:64-79 | a role holder passes in its own area |
| Middleware.PrefixMatchIsLoose | middleware.ts:51 | `/dashboardX` counts as protected |
| LibAuth.FirstMatch | lib/auth.ts:127-135 | the text of the first rule whose pattern occurs in the message, or the fallback when none does |
| LibAuth.Translate | lib/auth.ts:126-158 | no error exactly for a successful call; an exception gets the unexpected text; an error gets the first-match text |
| LibAuth.SignUpMessageOrder | lib/auth.ts:127-137 | sign-up checks 'User already registered', then 'Password should be', then 'Invalid email', then falls back to the generic text |
| LibAuth.SignIn | lib/auth.ts:162-186 | success exactly for a call without error; an exception gets the sign-in "unexpected" text; a refusal gets the credentials text, else the confirmation text, else the generic one |
| LibAuth.ResetPassword | lib/auth.ts:204-225 | success exactly for a call without error; an exception gets the reset "unexpected" text; a refusal gets the unknown-user text when the message says so, else the generic one |
| LibAuth.UpdatePassword | lib/auth.ts:227-248 | success exactly for a call without error; an exception gets the update "unexpected" text; a refusal gets the password-policy text when the message says so, else the generic one |
| LibAuth.SignOut | lib/auth.ts:188-202 | success exactly for a call without error; an exception gets the sign-out "unexpected" text; every refusal gets the same text, whatever the backend's message |
| LibAuth.SignInMessageOrder | lib/auth.ts:170-178 | the sign-in rules: bad credentials win over a missing confirmation; otherwise the generic text |
| LibAuth.SinglePatternTranslations | lib/auth.ts:211-240 | the reset rules recognise only 'User not found', and the update rules only 'Password should be' |
| LibAuth.GetUserProfile | lib/auth.ts:58-80 | a row is returned exactly for a found row; code PGRST116 gets "not found"; any other error gets "could not load"; an exception gets the unexpected text |
| LibAuth.ProfileFor | lib/auth.ts:37-44 | the inserted row carries the id, the registration data, and company and phone as given |
| LibAuth.CreateProfile | lib/auth.ts:27-56 | a row is inserted exactly when the insert succeeds; an insert error and an exception each get their text |
| LibAuth.SignUp | lib/auth.ts:111-160 | a profile is created only when the account call returns a user, and its error is passed on unchanged; no user and no error is a success; account errors are translated |
| AuthProvider.Fetched | components/auth/AuthProvider.tsx:36-50 | the profile is stored exactly for a found row; any error or exception stores null |
| AuthProvider.UseAuth | components/auth/AuthProvider.tsx:266-272 | outside a provider it is an error with the provider message; inside, it returns the context |
| AuthProvider.RequestBody | components/auth/AuthProvider.tsx:165-172 | the posted body carries the new user's id and the registration data |
| AuthProvider.ProviderSignUp | components/auth/AuthProvider.tsx:122-186 | account errors use the first-match order of the helper; with a user, a response that is not OK gives the server's error or the fallback text |
| AuthProvider.ValidFormDecidedByInsert | components/auth/AuthProvider.tsx:158-178 | a registration that passed the form always passes the endpoint's required-field check, so the result is decided by the insert |
| AuthProvider.Provider.constructor | components/auth/AuthProvider.tsx:32-34 | no user, no profile, loading |
| AuthProvider.Provider.Role | components/auth/AuthProvider.tsx:254 | the role is `profile.role`, or null without a profile |
| AuthProvider.Provider.FetchProfile | components/auth/AuthProvider.tsx:36-50 | the profile becomes `Fetched` of the reply |
| AuthProvider.Provider.RefreshProfile | components/auth/AuthProvider.tsx:52-56 | does nothing without a user; otherwise fetches again |
| AuthProvider.Provider.GetInitialSession | components/auth/AuthProvider.tsx:60-73 | a session sets the user and fetches its profile; loading ends false in every case |
| AuthProvider.Provider.OnAuthStateChange | components/auth/AuthProvider.tsx:78-90 | a session sets the user and fetches the profile; no session clears both and the role; loading ends false |
| ProfileRoute.RowOf | app/api/auth/profile/route.ts:23-32 | the row carries the four required fields, and the company and phone unchanged |
| ProfileRoute.Post | app/api/auth/profile/route.ts:10-50 | any missing required field gives 400 and no insert; an insert error gives 500 with its text; an exception gives 500; a row is inserted exactly when the response is OK |
| SrcAuthProvider.Adopted | src/components/providers/AuthProvider.tsx:38-40 | the fetched row is adopted only when it came without an error; otherwise the previous row stays |
| SrcAuthProvider.StaleRowSurvivesFailedLookup | src/components/providers/AuthProvider.tsx:59-62 | a failed lookup keeps the previous row |
| SrcAuthProvider.Provider.constructor | src/components/providers/AuthProvider.tsx:18-20 | no user, no backend user, loading |
| SrcAuthProvider.Provider.GetUser | src/components/providers/AuthProvider.tsx:23-44 | a session sets the backend user and adopts the row; loading ends false; a rejected session call leaves everything unchanged |
| SrcAuthProvider.Provider.OnAuthStateChange | src/components/providers/AuthProvider.tsx:50-68 | a session sets the backend user and adopts the row; no session clears both; loading ends false |
| Pages.RoleHome | app/dashboard/page.tsx:14-26 | each known role goes to its own area; any other role goes to the shipper's area |
| Pages.DashboardRedirect | app/dashboard/page.tsx:11-28 | no navigation while loading or without both user and profile; otherwise the role's home |
| Pages.DashboardView | app/dashboard/page.tsx:30-48 | the loading spinner exactly while loading |
| Pages.RoleHomeAdmitted | app/dashboard/page.tsx:14-23 | each known role's home passes the route guard for that role |
| Pages.NoServerRoleBouncesBack | app/dashboard/page.tsx:12-26 | when the middleware saw no profile, the page and the guard send the user back and forth |
| Pages.AdminRedirect | app/dashboard/admin/page.tsx:11-15 | once loaded, anyone who is not a signed-in administrator is sent to `/dashboard` |
| Pages.AdminViewOf | app/dashboard/admin/page.tsx:24-51 | only the spinner while loading; the panel only for a signed-in administrator, greeted by full name or else email |
| Pages.AdminRenderMatchesRedirect | app/dashboard/admin/page.tsx:12-37 | nothing is rendered exactly when the page navigates away |
| Pages.AfterSignOut | app/dashboard/admin/page.tsx:17-22 | navigates to `/` exactly when sign-out succeeded |
| Pages.HomePage | src/app/page.tsx:26-41 | no session goes to `/auth`; no row goes to `/onboarding`; otherwise the dashboard with the row of the session's user |
| Pages.HomeShowsOwnRow | src/app/page.tsx:31-35 | the dashboard gets the session user's own row |
| ShipperPage.NewRequest | app/shipper/page.tsx:81-96 | the new request carries the form's entries, the placeholder shipper, status 'active', no accepted owner, and no bids |
| ShipperPage.Badge | app/shipper/page.tsx:108-127 | a badge exists only for 'active' and 'closed', each with its own label |
| ShipperPage.NewRequestListedActive | app/shipper/page.tsx:341-345 | a new request shows the active badge and a bid count of zero |
| ShipperPage.Samples | app/shipper/page.tsx:34-70 | two sample requests, the first active and the second closed |
| ShipperPage.Dashboard.constructor | app/shipper/page.tsx:34-74 | the samples; form hidden; not loading; no alert |
| ShipperPage.Dashboard.ToggleForm | app/shipper/page.tsx:176 | the form's visibility flips |
| ShipperPage.Dashboard.HandleSubmit | app/shipper/page.tsx:76-106 | the new request goes first, followed by the old list in order; the list grows by one; the form is hidden; the success alert is set; loading ends false |
| BidAmount.PassingAmount | src/components/dashboard/BidsPanel.tsx:61 | a passing amount is non-empty and parses to a positive number or to NaN |
| BidsPanel.Actions | src/components/dashboard/BidsPanel.tsx:249-339 | buttons only for pending bids: edit and cancel for an executor, accept and reject for any other role |
| BidsPanel.ActionsSplitByRole | src/components/dashboard/BidsPanel.tsx:251-339 | no bid offers actions of both roles |
| BidsPanel.StatusColor | src/components/dashboard/BidsPanel.tsx:185-193 | the three known non-cancelled statuses each get their own colour; every other status is gray |
| BidsPanel.CancelIn | src/components/dashboard/BidsPanel.tsx:117-123 | after the cancel write, only the bids with that id change, and only their status, to 'CANCELLED' |
| BidsPanel.CancelledBidHasNoActions | src/components/dashboard/BidsPanel.tsx:117-123 | a cancelled bid offers no action to anyone |
| BidsPanel.Panel.constructor | src/components/dashboard/BidsPanel.tsx:19-25 | the role defaults to EXECUTOR; no bids; loading; nothing being edited |
| BidsPanel.Panel.FetchBids | src/components/dashboard/BidsPanel.tsx:31-58 | rows (`data \|\| []`) replace the list, and an error keeps it; loading ends false |
| BidsPanel.Panel.HandleSubmitBid | src/components/dashboard/BidsPanel.tsx:60-86 | a refused amount only alerts; otherwise the insert carries the parsed amount and the message or null; a success clears amount and message and refetches; a failure keeps both |
| BidsPanel.Panel.HandleUpdateBid | src/components/dashboard/BidsPanel.tsx:88-114 | also refused with no bid being edited; a success also closes the editor |
| BidsPanel.Panel.HandleCancelBid | src/components/dashboard/BidsPanel.tsx:116-131 | nothing without confirmation; otherwise the status write; a success refetches, a failure alerts |
| BidsPanel.Panel.StartEdit | src/components/dashboard/BidsPanel.tsx:258-262 | the bid is being edited, with its amount as text and its message or '' |
| BidsPanel.Panel.CloseEdit | src/components/dashboard/BidsPanel.tsx:303 | nothing is being edited |
| BidsPanel.Panel.EnterValues | src/components/dashboard/BidsPanel.tsx:281-293 | the inputs store what was typed |
| BidDialog.DisabledMatchesGuard | src/components/dashboard/BidDialog.tsx:25-103 | with a request and not loading, the button is disabled exactly when the handler would refuse; while loading it is always disabled |
| BidDialog.Render | src/components/dashboard/BidDialog.tsx:56-59 | nothing renders without a request |
| BidDialog.Dialog.constructor | src/components/dashboard/BidDialog.tsx:20-22 | empty amount and message; not loading |
| BidDialog.Dialog.EnterValues | src/components/dashboard/BidDialog.tsx:82-95 | the inputs store what was typed |
| BidDialog.Dialog.HandleSubmit | src/components/dashboard/BidDialog.tsx:24-54 | a refused submit only alerts; otherwise: loading on, the insert; on success reset amount, reset message, `onClose`, `onSubmit`, alert, in that order; loading off last in every case |
| ChatPanel.ChatList | src/components/dashboard/ChatPanel.tsx:73 | the list holds exactly the chats present in the rows, and is no longer than the rows |
| ChatPanel.ChatListAppend | src/components/dashboard/ChatPanel.tsx:73 | extraction keeps the rows' order: it distributes over concatenation |
| ChatPanel.ChatListKeepsPresent | src/components/dashboard/ChatPanel.tsx:73 | rows that all hold a chat are kept whole and in order |
| ChatPanel.SelectedChat | src/components/dashboard/ChatPanel.tsx:144 | the first chat whose id equals the selection; nothing when nothing is selected or no chat matches |
| ChatPanel.UnreadCount | src/components/dashboard/ChatPanel.tsx:138-142 | the unread count is 0 for every chat |
| ChatPanel.NoUnreadBadges | src/components/dashboard/ChatPanel.tsx:190-194 | so no chat ever shows an unread badge |
| ChatPanel.EnabledSendIsAccepted | src/components/dashboard/ChatPanel.tsx:114-136 | with a chat selected, an enabled send button always gets past the guard |
| ChatPanel.SentContent | src/components/dashboard/ChatPanel.tsx:115-124 | text that passes the guard is sent non-empty, and neither starts nor ends with whitespace |
| ChatPanel.Panel.constructor | src/components/dashboard/ChatPanel.tsx:21-25 | no chats, no messages, empty input, loading, not sending |
| ChatPanel.Panel.FetchChats | src/components/dashboard/ChatPanel.tsx:59-79 | the extracted list replaces the chats; loading ends false whatever the reply |
| ChatPanel.Panel.FetchMessages | src/components/dashboard/ChatPanel.tsx:81-104 | the rows (`data \|\| []`) replace the messages; an error keeps them |
| ChatPanel.Panel.OnInsert | src/components/dashboard/ChatPanel.tsx:46-47 | the new message goes last, and the earlier ones stay unchanged and in order |
| ChatPanel.Panel.EnterText | src/components/dashboard/ChatPanel.tsx:269 | the input stores what was typed |
| ChatPanel.Panel.SendMessage | src/components/dashboard/ChatPanel.tsx:114-136 | a blank text or no chat id sends nothing; otherwise the trimmed text is sent; the input is cleared only on success; a failure alerts; sending ends false |

## Left out

- Backend calls are not modelled as code. This covers the Supabase client, query builders, `fetch`, the cookies and realtime channels. Each reply is a parameter of the operation that makes the call. The model has no concurrency and no races between auth events, realtime pushes and fetches.
- The query side is left out: `select` joins, `eq`/`order` filters, the role-dependent `fetchBids` query, and `.order('created_at')` of the messages. Whatever rows the backend returns are a parameter.
- `getRequests`, `getRequestWithBids` and `updateUserProfile` are left out. They are single queries whose only logic is passing on an error text.
- `/api/bids/[id]` is left out, together with the panel's `handleAcceptBid` and `handleRejectBid`, which only call it. That endpoint's accept and reject semantics are outside this model.
- Rendering is left out: JSX, CSS, icons and layouts. It is modelled only where a page decides *what* to show: `Rendered`, `DashboardView`, `AdminViewOf`, `Render`, `Badge`, `StatusColor`, `Actions`.
- Floating point is not modelled. Amounts and prices are `real`. `parseFloat` and `Number` are a parameter, and NaN is `None`. Infinity, rounding and `toFixed`/`toLocaleString` formatting are left out.
- Time is not modelled: `Date.now()` ids, `toISOString` timestamps, `last_read_at` and date-fns output are opaque parameters or left out. The `setTimeout` delay before a redirect is not modelled; the model returns the scheduled next step as the outcome.
- Scroll-into-view and `console.error` are left out.
- The middleware's `config.matcher` is left out. It decides which paths reach the middleware, which is the framework's job.
- The duplicates are not modelled twice. The provider's `signIn`, `resetPassword`, `updatePassword` and `signOut` repeat `lib/auth.ts` word for word, so `LibAuth.SignIn`, `LibAuth.ResetPassword`, `LibAuth.UpdatePassword` and `LibAuth.SignOut` model both. The `src` provider's `useAuth` is the same as the `components` one, and `AuthProvider.UseAuth` models both.
- `ProfileRoute.Post`: the model does not cover non-string JSON values in the body (numbers, booleans, objects). A body field is a string or absent.
- The bids panel's insert has no status field; the backend's default status is not modelled.
- `ShipperPage.Dashboard.HandleSubmit`: two parts are not modelled, because the handler has no `await` and none of its statements can throw:
  - the branch that sets the error alert;
  - the intermediate state with loading true and no alert, which renders only after the handler ends.
- `SrcAuthProvider.Provider.GetUser`: a rejection of the profile query inside `getUser` is not modelled; the query's error is a reply like any other.
- `BidsPanel.Panel.StartEdit`: `amount.toString()` is a parameter, not JavaScript's number-to-text conversion.

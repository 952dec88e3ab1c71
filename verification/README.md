# ShareWise client: session guard, request gateway, validators and article list

This project models, in Dafny, the decision logic of the ShareWise
browser client (a knowledge-sharing front end whose backend is out of
scope). Network, rendering and the browser are replaced by values:

- the tab is an immutable `Browser` record (`BrowserTab`): whether a
  `window` exists, the `localStorage` map with its `"token"` and
  `"authUser"` keys, the current route, the notices shown so far and a count
  of full page loads;
- every backend answer is an `Outcome<T>` (`AxiosClient`): `Resolved(data)`
  or `Rejected(response?)`, the response carrying a status and an optional
  `message`;
- every handler is one atomic, pure transition.

The modules follow the source files:

- `Routes` and `ChildLayout` hold the route table, the guard, the mount
  effect, the loading gate and logout.
- `AuthContext` holds the shared flag, its setter and `useAuth`.
- `AxiosClient` is the 401 interceptor.
- `ApiMethods` covers request shaping and error normalisation in
  `apiMethod`.
- `ApiServices` is the endpoint table.
- `FormSchema` holds the zod schemas.
- `SignIn`, `SignUp` and `NewArticle` are the three forms; `AuthForms` and
  `Forms` hold what they share.
- `ArticlesPage` covers the search filter, owner gating and the fetch and
  delete handlers.
- `App` composes the layout, the context and the browser into one state
  machine. After each handler it re-runs the guard when the path or
  `loading` changed, as React does. A full page load (`window.location.href`)
  starts every component over.

The central result is `App.ReachableIsConsistent`. Every tab that starts
out loading, as `App.Load` leaves it after a page load, stays on a route the
guard allows once it resolves. The events include every form submission,
each made from the page that renders it: sign-in on "/" and sign-up on
"/signup". `App.EmptyTokenBypassesGuard` shows why that matters: a sign-in
submitted on "/articles", where no sign-in form is shown, could leave the
tab there without a token.

Behaviour of the code worth noting:

- Sign-in does not set either authenticated flag
  (`App.SignInLeavesFlagsStale`). Only sign-up sets the shared context flag, and the layout's own flag changes
  only at mount and logout. So a flag can disagree with storage until the
  next page load.
- The endpoint paths are the code's: `api/v1/auth/login/` ends in a slash,
  and so do create (`api/v1/articles/`) and delete (`api/v1/articles/{id}/`).
- A 401 is also handled during sign-in and sign-up. A rejected login with
  status 401 shows "Session expired. Please log in again." and reloads at
  "/".
- The title rule enforces at most 50 characters, but its message says 200
  (`NewArticle.TitleMessageMismatch`).

## Model

| member | source | states |
|---|---|---|
| Routes.Guard | src/components/childLayout.tsx:46-53 | no redirect exactly when the token state allows the path (public routes only without a token, protected only with one); any redirect goes to "/articles" with a token and "/" without, and lands on an allowed route |
| Routes.PublicProtectedDisjoint | src/components/childLayout.tsx:46-47 | no path is both public (exact member of {"/", "/signup"}) and protected (prefix "/articles") |
| Routes.GuardCases | src/components/childLayout.tsx:49-53 | token plus "/" or "/signup" redirects to "/articles"; no token plus a path starting with "/articles" redirects to "/"; every other case gives no redirect |
| Routes.RedirectTargetIsFixpoint | src/components/childLayout.tsx:49-53 | the guard applied to its own redirect target produces no further redirect |
| Routes.LandingRoutesStable | src/components/childLayout.tsx:50-52 | "/articles" with a token and "/" without one are not redirected |
| Routes.UnclassifiedNeverRedirected | src/components/childLayout.tsx:46-53 | a path neither public nor protected is never redirected, whatever the token state |
| Routes.UnclassifiedExamples | src/components/childLayout.tsx:46-53 | "/foo" and "/article" are never redirected; "/articles/42/edit" without a token goes to "/" |
| ChildLayout.Mount | src/components/childLayout.tsx:28-40 | after mount `loading` is false and the flag is true exactly when there is a window and a stored, non-empty token |
| ChildLayout.GuardEffect | src/components/childLayout.tsx:42-54 | while loading the tab is unchanged; afterwards only the route can change and it ends on a route the token state allows; an allowed route is left alone |
| ChildLayout.InertBeforeMount | src/components/childLayout.tsx:25-26 | the initial layout is loading with the flag false, renders no children and its guard changes nothing |
| ChildLayout.MountResolvesOnce | src/components/childLayout.tsx:36-40 | after mount children render, and mounting again with the same storage changes nothing |
| ChildLayout.GuardEffectIdempotent | src/components/childLayout.tsx:49-53 | running the guard effect twice equals running it once |
| ChildLayout.Logout | src/components/childLayout.tsx:56-63 | logout empties the store, navigates to "/", sets the flag false, adds "Logout successful" and leaves no token |
| ChildLayout.LogoutTwice | src/components/childLayout.tsx:56-63 | a second logout yields the same store, route and flag; only the confirmation repeats |
| BrowserTab.CheckAuthToken | src/components/childLayout.tsx:28-34 | false without a window; with one, true exactly when a "token" entry is stored and it is not the empty text (src/context/authContext.tsx defines the same check) |
| BrowserTab.CheckAuthTokenReadsOnlyToken | src/components/childLayout.tsx:28-34 | the check depends on nothing but the window flag and the "token" entry |
| AuthContext.ProviderMount | src/context/authContext.tsx:12-24 | after the mount effect the shared flag is true exactly when there is a window and a stored, non-empty token |
| AuthContext.SetIsAuthenticated | src/context/authContext.tsx:27 | the setter makes the flag the given value |
| AuthContext.UseAuth | src/context/authContext.tsx:33-38 | fails with "useAuth must be used within an AuthProvider" exactly when no provider value exists, and otherwise returns that value unchanged |
| AxiosClient.Intercept | src/lib/axios.ts:14-24 | every outcome is passed on unchanged, so successes resolve and failures reject with the original error. A 401 in a browser removes the token, adds "Session expired. Please log in again." and loads "/". Anything else leaves the tab unchanged |
| AxiosClient.UnauthorizedKeepsOtherKeys | src/lib/axios.ts:17-18 | after a 401 every key other than "token" (e.g. "authUser") keeps its value, and no token is found |
| ApiMethods.DataOrDefault | src/utils/apiMethods.ts:8 | an omitted `data` is `{}` |
| ApiMethods.BuildRequest | src/utils/apiMethods.ts:12-18 | for "get" the payload is the params and there is no body; for every other verb it is the body and there are no params; credentials are always included |
| ApiMethods.SendTokenIgnored | src/utils/apiMethods.ts:9-17 | the issued request is the same whatever `sendToken` is |
| ApiMethods.ErrorMessage | src/utils/apiMethods.ts:22 | the message is the backend's `message` when it is a non-empty string, else "Something went wrong"; it is never empty |
| ApiMethods.ApiMethod | src/utils/apiMethods.ts:5-24 | success yields `response.data` unchanged with the tab unchanged; failure yields the normalised message; the tab is what the interceptor left |
| ApiMethods.FailuresAlwaysReachCaller | src/utils/apiMethods.ts:21-22 | every failure, a 401 included, reaches the caller with a non-empty message; non-401 failures leave the tab unchanged |
| ApiServices.EndpointOf | src/services/apiServices.ts:3-29 | each path starts with "api/v1/". The four reads use "get" with `{}` and `sendToken` true. The writes omit `sendToken`. Bodies are forwarded unchanged. Delete has no payload |
| ApiServices.Invoke | src/services/apiServices.ts:3-42 | calling an operation issues its endpoint's request and yields what `apiMethod` yields |
| ApiServices.IdPaths | src/services/apiServices.ts:13-29 | id operations address "api/v1/articles/" + id followed by "", "/", "/history" or "/summary" |
| ApiServices.WireShape | src/services/apiServices.ts:10-29 | for every tab and every backend outcome, reads send `{}` as params and no body; body operations send their body; delete sends `{}` |
| FormSchema.Utf16Length | src/shared/formSchema.ts:7 | the length rules count UTF-16 code units, between the character count and twice it |
| FormSchema.BmpLength | src/shared/formSchema.ts:7 | on the Basic Multilingual Plane the counted length equals the character count |
| FormSchema.SomeChar | src/shared/formSchema.ts:8-10 | an unanchored class regex matches exactly when some character is in the class |
| FormSchema.EveryChar | src/shared/formSchema.ts:18-21 | an anchored `^[..]+$` regex matches exactly when the string is non-empty and every character is in the class |
| FormSchema.PasswordIssues | src/shared/formSchema.ts:5-10 | each of the four messages is reported exactly when its rule fails, and there are no issues exactly when the length is ≥ 8 and there is an ASCII uppercase letter, an ASCII digit and a character that is not an ASCII letter or digit |
| FormSchema.NameIssues | src/shared/formSchema.ts:15-21 | the length message exactly when shorter than 2, the character message exactly when not all ASCII letters or JavaScript whitespace, and no issue exactly when the name is accepted |
| FormSchema.ConfirmIssues | src/shared/formSchema.ts:30-32 | the confirmation fails only by length below 8, with its own message |
| FormSchema.SignInCheck | src/shared/formSchema.ts:3-11 | an empty field reports "Required"; otherwise the e-mail error exists exactly when the e-mail test fails and is "Invalid email format"; the password error exists exactly when the password rule fails, and a short non-empty password gets the length message |
| FormSchema.SignUpCheck | src/shared/formSchema.ts:13-37 | an empty field reports "Required"; each field's error exists exactly when its rule fails. `confirmPassword` has no error exactly when it is ≥ 8 long and either equals the password or some field is empty, since an empty field stops the match refinement. A long enough confirmation that differs, with no field empty, reports "Passwords must match" |
| FormSchema.EmptyFieldHidesMismatch | src/shared/formSchema.ts:34-37 | with the name empty, two different well-formed passwords raise no confirmation error, and the name reports "Required" |
| FormSchema.EmptySignInRequired | src/components/sign-in/index.tsx:20-24 | the untouched sign-in form, whose fields start as "", reports "Required" on both fields |
| FormSchema.SamePasswordRule | src/shared/formSchema.ts:5-28 | sign-in and sign-up report the same password error for the same password |
| FormSchema.SignUpAcceptance | src/shared/formSchema.ts:13-37 | a sign-up record is valid exactly when the e-mail is non-empty and passes the e-mail test, the name and password rules hold and the two passwords are equal |
| FormSchema.UnderscoreIsSpecial | src/shared/formSchema.ts:10 | "_" satisfies the special-character rule ("Abcdefg1_" is accepted) |
| FormSchema.AlphanumericRejected | src/shared/formSchema.ts:10 | a password of ASCII letters and digits only is rejected with the special-character message |
| AuthForms.StoredToken | src/components/sign-in/index.tsx:36 | the token is stored as text, "undefined" when the reply has none; it counts as present unless it is the empty string |
| AuthForms.PersistSession | src/components/sign-in/index.tsx:36-37 | "token" and "authUser" (the user record) are written and every other key and the route are kept |
| SignIn.OnSubmit | src/components/sign-in/index.tsx:26-47 | on success the tab goes to "/articles", stores the token and user, keeps other keys, shows the reply's message or "Signin successful" and resets the form. On failure it shows the error message after the interceptor's effect and keeps the form. `loading` is false after both paths |
| SignIn.Submit | src/components/sign-in/index.tsx:124 | a request is sent exactly when the form is valid and not already submitting; otherwise nothing changes |
| SignIn.FailureNotice | src/components/sign-in/index.tsx:43-47 | the failure notice is the normalised message, so it reads "Signin failed" only if the backend said exactly that |
| SignIn.FailureLeavesSession | src/components/sign-in/index.tsx:43-47 | a non-401 failure leaves storage and route untouched; a 401 removes only the token and goes to "/" |
| SignIn.SentRequest | src/components/sign-in/index.tsx:30 | the request posts exactly email and password to "api/v1/auth/login/" |
| SignUp.OnSubmit | src/components/sign-up/index.tsx:31-49 | success behaves as sign-in's with "Signup successful" and also sets the shared flag true. Failure leaves the flag unchanged and shows the error message. `loading` is false after both paths |
| SignUp.Submit | src/components/sign-up/index.tsx:185 | a request is sent exactly when the form is valid and not submitting; otherwise nothing changes |
| SignUp.SentRequest | src/components/sign-up/index.tsx:35 | the request posts the four fields to "api/v1/auth/signup" |
| NewArticle.TitleErrors | src/app/articles/new/page.tsx:59-62 | a title is accepted exactly when its length is in 5..50. An empty title reports only the required message. The min and max messages appear exactly when their bound is broken |
| NewArticle.TitleMessageMismatch | src/app/articles/new/page.tsx:62 | a 51-character title is rejected with the message that names 200 |
| NewArticle.Utf16Prefix | src/app/articles/new/page.tsx:80 | the longest prefix in whole characters within a code-unit budget: a prefix, within budget, the whole text when it fits, and maximal |
| NewArticle.ContentErrors | src/app/articles/new/page.tsx:71-73 | content is accepted exactly when it has at least 50 characters; empty and short content get their own messages |
| NewArticle.ContentField | src/app/articles/new/page.tsx:80 | the text area holds a prefix of what was typed of at most 10000 UTF-16 code units, all of it when short enough, and one more character would exceed the cap |
| NewArticle.CappedContentAccepted | src/app/articles/new/page.tsx:71-80 | capped content passes exactly when at least 50 characters were typed, since a cut text keeps at least 5000 characters |
| NewArticle.HandleSubmit | src/app/articles/new/page.tsx:19-35 | success shows "Article created successfully" and goes to "/articles"; failure shows "Failed to create article" after the interceptor's effect; `loading` ends false |
| NewArticle.SentRequest | src/app/articles/new/page.tsx:22-27 | the create request posts exactly title and content to "api/v1/articles/" with no params |
| NewArticle.FailureKeepsRoute | src/app/articles/new/page.tsx:30-31 | a non-401 failure keeps the route and the store |
| NewArticle.Finish | src/app/articles/new/page.tsx:50-55 | the handler runs, and a request is sent, exactly when title and content pass their rules |
| ArticlesPage.Lower | src/components/articles/articlePage.tsx:73-75 | lowering keeps the length and maps each character by ASCII lowering |
| ArticlesPage.Includes | src/components/articles/articlePage.tsx:73-75 | `includes` holds exactly when the needle occurs at some position |
| ArticlesPage.Filter | src/components/articles/articlePage.tsx:71-76 | every kept article matches; every matching article is kept; nothing else appears |
| ArticlesPage.FilterCounts | src/components/articles/articlePage.tsx:71-76 | each matching article occurs in the result as often as in the list, and any other article not at all |
| ArticlesPage.FilterAppend | src/components/articles/articlePage.tsx:71 | filtering a concatenation is the concatenation of the filtered parts |
| ArticlesPage.FilterIsSubsequence | src/components/articles/articlePage.tsx:71 | the filtered list is a subsequence of the articles, in original order |
| ArticlesPage.FilterKeepsExactlyMatches | src/components/articles/articlePage.tsx:72-75 | an article is kept exactly when the lowered search text occurs in its lowered title, content or `createdBy` |
| ArticlesPage.EmptySearchKeepsAll | src/components/articles/articlePage.tsx:72-75 | the empty search text keeps every article |
| ArticlesPage.FilterIdempotent | src/components/articles/articlePage.tsx:71-76 | filtering twice with the same text equals filtering once |
| ArticlesPage.FilterSeesLowercaseOnly | src/components/articles/articlePage.tsx:73-75 | the result depends on the search text only through its lower-case form |
| ArticlesPage.LoggedUser | src/components/articles/articlePage.tsx:39-40 | with no "authUser" there is no logged user; a stored user record is read back unchanged |
| ArticlesPage.OwnerActions | src/components/articles/articlePage.tsx:131 | with no logged user rendering throws; otherwise the actions show exactly when `record.author.id` equals the logged user's id |
| ArticlesPage.OwnerAfterSignIn | src/components/articles/articlePage.tsx:39-40 | after "authUser" is set to a user, the actions show exactly on that user's articles |
| ArticlesPage.Fetch | src/components/articles/articlePage.tsx:46-56 | success replaces the list with `data.data`; failure keeps it and shows "Failed to fetch articles"; `loading` ends false |
| ArticlesPage.HandleDelete | src/components/articles/articlePage.tsx:58-69 | success sends the delete and then a refetch of the list; failure keeps the list and shows "Failed to delete article" then the error message |
| App.Load | src/components/childLayout.tsx:25-26 | a page load keeps the browser, and starts the layout loading with both flags false |
| App.Handle | src/components/childLayout.tsx:36-63 | notices are only appended and page loads never decrease; only the mount effect ends `loading`, setting both flags to the token check; navigation changes only the route; logout ends on "/" with no token; only mount and sign-up touch the shared flag, and a successful sign-up sets it |
| App.Settle | src/components/childLayout.tsx:42-54 | after a full page load every component starts over; otherwise the layout and context are kept; in both cases nothing of the tab but the route can change |
| App.Step | src/components/childLayout.tsx:42-54 | after a handler and the guard, notices only grew, page loads never decreased, storage is what the handler left, and the layout is loading again only after a full page load |
| App.Run | src/components/childLayout.tsx:42-54 | over any event sequence notices only grow, page loads never decrease, and a resolved layout returns to loading only through a full page load |
| App.StepKeepsConsistent | src/components/childLayout.tsx:42-54 | no event moves a resolved tab to a route the guard forbids, when each form is submitted from its own page |
| App.RunKeepsConsistent | src/components/childLayout.tsx:42-54 | any sequence of such events keeps a consistent tab consistent |
| App.ReachableIsConsistent | src/components/childLayout.tsx:36-54 | a tab that starts out loading, as every page load leaves it, is on an allowed route after any such events once it resolves |
| App.EmptyTokenBypassesGuard | src/components/childLayout.tsx:54 | a sign-in submitted on "/articles", off its page, whose reply holds an empty token would leave a resolved tab on a protected route with no token |
| App.ContextChangesOnlyThroughSetter | src/context/authContext.tsx:22-27 | without a page load the shared flag changes only at mount or by a successful sign-up's setter; sign-in never changes it |
| App.SignInLeavesFlagsStale | src/components/sign-in/index.tsx:26-42 | after a successful sign-in a token is present and the route is "/articles" while both flags are still false |
| App.ExpiryThenRemount | src/lib/axios.ts:17-21 | a 401 from any call reloads the tab; after mount it is on "/" with no token and both flags false, and "authUser" survives |
| App.LogoutSettles | src/components/childLayout.tsx:56-63 | logout leaves the tab on "/" with an empty store and the flag false; a second logout changes only the notices |

## Left out

- Rendering: JSX, styling, fonts, the logout modal, password visibility,
  `Loader`/`ButtonLoader`, `BackTop`, the footer and `src/app/layout.tsx`.
  Notices from react-hot-toast and antd `message` are one `Notice` kind.
- The HTTP transport, `baseURL`, headers and the real payload shapes. An
  `Outcome` stands for what the transport produced, and response fields
  other than `data` are not modelled.
- src/hooks/useAuth.ts: a network fetch whose only logic is
  `isAuthenticated = user != null`.
- The e-mail rule: it is the validation library's own regular expression,
  so `FormSchema.SignInCheck` and `FormSchema.SignUpCheck` take it as the
  parameter `isEmail`.
- Date parsing and formatting, the `createdAt` sorter and table pagination:
  these are host-library behaviour.
- ArticlesPage.Lower: lowers ASCII letters only, while the browser applies
  full Unicode case mapping. The filter properties are stated for that
  ASCII lowering.
- Which page renders which form is not derived from the page files,
  which are not part of this model. `App.OnItsPage` states it: sign-in on
  "/", sign-up on "/signup", as the two forms' links show.
- Async interleavings, unmount races and effect scheduling. Each handler
  is atomic, and the guard runs after the handler has finished, although
  the code navigates before writing the token.
- The difference between `router.push` and `router.replace`: only the
  current route is modelled, not the history stack.
- Whether `AuthProvider` is mounted: the root layout mounts only
  `ChildLayout`, so `SignUp.OnSubmit` is simply given a context.
- Parsing stored text that is not a stringified user record: this is
  reported as `InvalidJson`. Which texts JSON would actually accept is not
  modelled.
- A reply without `data.data` in the article list, and errors other than
  the normalised one, such as the TypeError from destructuring a null
  reply. Only a thrown value whose `message` is empty or missing reaches
  the "Signin failed" and "Signup failed" fallbacks.
- Formik's own bookkeeping (touched fields, `validateOnMount`, `resetForm`
  internals). The submit gate uses the validity of the current values.
- The article detail, edit and history pages. They reuse the same gateway
  and endpoints and are not part of this model.

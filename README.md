# Wallet dashboard: verified model of its decision rules and state updates

This project models, in Dafny, the parts of a browser wallet dashboard that
hold logic of their own:

- the signature-verification endpoint `POST /api/auth/verify`, which recovers
  the signer of a message, compares it with the claimed address ignoring
  letter case, and answers 200 `{}`, 401 "Signature mismatch" or 500 "Auth failed"
  (`VerifyRoute`, verify_route.dfy);
- `userService.findOrCreate`, the lookup-then-insert over the `users` table,
  as a class holding the table (`UserService`, user_service.dfy);
- the route-guard middleware and its protected-route list (`Middleware`,
  middleware.dfy);
- the shared HTTP client: the request interceptor that turns the
  `accessToken` cookie into a `Bearer` header, and the lazy singleton
  `getApiClient` (`ApiClient`, api_client.dfy);
- the client-side auth store with its `user`, `session` and `isLoading`
  fields and its four actions (`AuthStore`, auth_store.dfy);
- the dashboard page: `formatAddress`, the token table, the network list and
  lookup, and the state updates of session restore, `refreshData`,
  `switchNetwork`, network selection and `disconnect` (`Dashboard`,
  dashboard.dfy).

Two helper modules hold `Option`/`Result` (wrappers.dfy) and the JavaScript
string built-ins the code relies on, with their own lemmas: `split`
round-trips with `join` and leaves no separator in any piece, `slice` clamping, `replaceAll` of one character
(`JsString`, js_string.dfy).

Everything outside the process is a parameter: signature recovery is a
function `recover` that may fail, `decodeURIComponent` a function `decode`
that may fail, `document.cookie` a string, and each answer of the database,
the auth backend, the browser wallet and the block explorer an input to the
operation that receives it. The environment variables (`NEXT_PUBLIC_API_BASE_URL`,
`NEXT_PUBLIC_WALLET_TOKEN`) are constructor parameters.

Where the system's written design and its code disagree, the model follows
the code:

- the endpoint answers 200 with an empty object and provisions no user; the
  design describes a 200 carrying the user record found or created;
- a signature that cannot be recovered gives 500 "Auth failed", not a 401,
  and a missing field gives 500 (or an unhandled error), never a 400;
- `findOrCreate` matches the address exactly, without lower-casing it, and
  rethrows any insert error; the design describes a lower-cased address and a
  re-fetch after a uniqueness conflict.

## Model

| member | source | states |
|---|---|---|
| VerifyRoute.Decide | src/app/api/auth/verify/route.ts:8-22 | the reply is always 200, 401 or 500; it is 200 exactly when recovery succeeds, the address is a string and both lower-case to the same text; 200 carries `{}`, 401 "Signature mismatch", 500 "Auth failed" |
| VerifyRoute.Post | src/app/api/auth/verify/route.ts:4-23 | a body that is not JSON, or is null, escapes as an unhandled error because parsing and destructuring sit outside the `try`; every object body gets a reply of status 200, 401 or 500 |
| VerifyRoute.PostAcceptsIffMatch | src/app/api/auth/verify/route.ts:4-18 | the handler answers an object body with a recovered signer and a string address 200 `{}` exactly when the two agree ignoring case, and 401 "Signature mismatch" otherwise |
| VerifyRoute.PostAuthFailed | src/app/api/auth/verify/route.ts:4-22 | the handler answers an object body whose signature cannot be recovered, or whose address is missing or not a string, 500 "Auth failed" |
| VerifyRoute.AcceptIffMatch | src/app/api/auth/verify/route.ts:9-18 | with a recovered signer and a string claim, the answer is 200 `{}` if and only if the two agree ignoring case, and 401 "Signature mismatch" otherwise |
| VerifyRoute.CaseInsensitive | src/app/api/auth/verify/route.ts:11 | two claimed addresses with the same lower case give the same outcome |
| VerifyRoute.UpperCaseClaimSame | src/app/api/auth/verify/route.ts:11 | claiming the upper-cased address gives the same outcome as claiming it as is |
| VerifyRoute.FailuresAreAuthFailed | src/app/api/auth/verify/route.ts:8-22 | a failed recovery, or an address that is missing or not a string, gives 500 "Auth failed" rather than an uncaught fault |
| VerifyRoute.OnlyThreeFieldsMatter | src/app/api/auth/verify/route.ts:5-9 | bodies that agree on `message`, `signature` and `address` get the same outcome; other keys are ignored |
| UserService.Matching | src/lib/supabase/services/userService.ts:5-9 | the rows selected are exactly the rows whose address equals the input, and none are selected exactly when no row has that address |
| UserService.SelectSingle | src/lib/supabase/services/userService.ts:5-11 | `.single()` yields a row exactly when one row matches, and that row has the address |
| UserService.LookedUp | src/lib/supabase/services/userService.ts:5-11 | a failed lookup finds nothing; otherwise a row is found exactly when one row matches the address, and it is a row of the table with that address |
| UserService.MatchingCounts | src/lib/supabase/services/userService.ts:5-11 | each row with the address is selected as often as it occurs in the table and no other row is, so a single match means exactly one row has the address |
| UserService.Provision | src/lib/supabase/services/userService.ts:4-22 | a call only appends to the table, by at most one row, and a returned row is in the table with the requested address |
| UserService.ExistingReturned | src/lib/supabase/services/userService.ts:5-11 | a single exact match is returned unchanged and the table is not touched |
| UserService.InsertsOneRow | src/lib/supabase/services/userService.ts:13-21 | without a match, exactly one row for the address is appended and returned |
| UserService.InsertErrorRethrown | src/lib/supabase/services/userService.ts:19 | an insert error is returned as the call's error, the table unchanged, with no retry or re-fetch |
| UserService.Idempotent | src/lib/supabase/services/userService.ts:4-22 | with at most one matching row beforehand, when both lookups reach the table and the first call returns a row, a second call returns the first call's record and changes nothing; the table grew by at most one row |
| UserService.DuplicatesDefeatLookup | src/lib/supabase/services/userService.ts:5-17 | with two rows for an address the lookup yields nothing and the call inserts a third |
| UserService.FailedLookupDuplicates | src/lib/supabase/services/userService.ts:5-17 | a failed lookup for an address that already has a row inserts a second row for it |
| UserService.CaseSensitiveKeys | src/lib/supabase/services/userService.ts:8-15 | "0xab" is not found among rows for "0xAB" and gets a row of its own |
| UserService.OthersUntouched | src/lib/supabase/services/userService.ts:13-17 | the rows for every other address are the same after the call |
| UserService.UniquePreserved | src/lib/supabase/services/userService.ts:4-22 | a table with at most one row per address keeps that property when the lookup succeeds |
| UserService.UsersTable.FindOrCreate | src/lib/supabase/services/userService.ts:4-22 | the returned value and the new table are those of `Provision` on the old table, and ids stay distinct and below the next id |
| Middleware.MappedProtectedRoutes | src/middleware.ts:9-11 | the mapped list is the protected-route list element for element |
| Middleware.AnyRouteMatches | src/middleware.ts:26-28 | true exactly when some route equals the pathname or is a prefix of it |
| Middleware.Middleware | src/middleware.ts:13-37 | every redirect goes to "/" or "/sign-in", and a redirect to "/sign-in" happens only without a user and carries the original pathname |
| Middleware.EveryPathProtected | src/middleware.ts:9-28 | a pathname is protected exactly when it begins with "/", because "/" is in the list and the test is a prefix test |
| Middleware.DecisionTable | src/middleware.ts:13-37 | the whole decision for every pathname beginning with "/", as a table over user and `session` cookie |
| Middleware.SignedInAwayFromSignIn | src/middleware.ts:18-20 | "/sign-in" with a user redirects to "/" |
| Middleware.SignInOpenWithoutSession | src/middleware.ts:22-24 | "/sign-in" with no user and no `session` cookie is let through |
| Middleware.UnauthenticatedRedirected | src/middleware.ts:30-34 | a protected path other than "/sign-in" without a user redirects to "/sign-in" with `redirectedFrom` set to the pathname |
| Middleware.SignedInPassesElsewhere | src/middleware.ts:18-36 | with a user, every path but "/sign-in" is let through |
| Middleware.StaleCookieRedirectLoop | src/middleware.ts:18-34 | "/sign-in" with a `session` cookie but no user redirects to "/sign-in?redirectedFrom=/sign-in", that is, to itself |
| Middleware.MiddlewareCorrected | src/middleware.ts:13-37 | "/sign-in" without a user is let through whatever the cookies; with a user it still redirects to "/", and every request with a user, or on any other path, is decided as the middleware does |
| Middleware.CorrectedNoRedirectLoop | src/middleware.ts:13-37 | a redirect of the corrected guard never points back at the requested path, and its target is let through |
| ApiClient.FirstWithPrefix | src/lib/axios/index.ts:18-20 | the index found is the first cookie entry starting with `accessToken=`; none is found exactly when no entry starts with it |
| ApiClient.RawAccessToken | src/lib/axios/index.ts:18-21 | the token is undefined exactly when no cookie entry starts with `accessToken=`, and a token found never contains `=` |
| ApiClient.CookieEntries | src/lib/axios/index.ts:18-19 | the cookie header is cut exactly at each `"; "`: the entries joined with `"; "` give the header back, and no entry contains `"; "` |
| ApiClient.AuthorizationHeader | src/lib/axios/index.ts:17-28 | the header assigned always starts with "Bearer "; it is left unassigned exactly when a non-empty token fails to decode |
| ApiClient.TokenFromFirstEntry | src/lib/axios/index.ts:18-21 | the token is taken from the first matching entry: the text after `accessToken=` up to the next `=` or the end, so a value holding `=` is cut short |
| ApiClient.MissingCookieHeader | src/lib/axios/index.ts:18-25 | without an `accessToken` entry the header is "Bearer undefined" |
| ApiClient.EmptyTokenHeader | src/lib/axios/index.ts:21-25 | an empty token value gives the header "Bearer " |
| ApiClient.DecodedTokenHeader | src/lib/axios/index.ts:22-25 | the header is "Bearer " followed by the decoded token with every `"` removed (the other characters in their order, since removal works piece by piece), and the decoded token unchanged when it has none |
| ApiClient.InterceptRequest | src/lib/axios/index.ts:15-29 | the config is returned; its Authorization header is set to the computed value, or every header left as it was when decoding throws |
| ApiClient.Client.constructor | src/lib/axios/index.ts:7-13 | the client gets the configured base URL, a 40000 ms timeout and the JSON content type |
| ApiClient.ClientHolder.constructor | src/lib/axios/index.ts:3 | before the first call no client exists |
| ApiClient.ClientHolder.GetApiClient | src/lib/axios/index.ts:5-46 | the first call creates the client with the configured base URL, a 40000 ms timeout and the JSON content type; every later call returns that same instance, and at most one client is ever created |
| ApiClient.SameClientTwice | src/lib/axios/index.ts:5-46 | two calls return the same instance |
| AuthStore.AfterSignIn | src/lib/supabase/services/user-service.ts:21-48 | `signIn` and `signUp` never change `isLoading` |
| AuthStore.AfterSignOut | src/lib/supabase/services/user-service.ts:50-53 | signing out leaves no user and no session and keeps `isLoading` |
| AuthStore.AfterRefresh | src/lib/supabase/services/user-service.ts:55-62 | refreshing ends loading, takes the backend's session, and has a user exactly when there is a session |
| AuthStore.SignInOnlyWithSession | src/lib/supabase/services/user-service.ts:27-29 | without a session in the answer nothing changes; with one, exactly user and session are replaced |
| AuthStore.SignOutIdempotent | src/lib/supabase/services/user-service.ts:50-53 | signing out twice is signing out once |
| AuthStore.RefreshConsistent | src/lib/supabase/services/user-service.ts:58 | after a refresh the user is the session's user, or null without a session |
| AuthStore.RunKeepsConsistent | src/lib/supabase/services/user-service.ts:21-62 | any sequence of actions keeps the user equal to the session's user, given sign-in answers whose user is their session's user |
| AuthStore.LoadingUntilRefresh | src/lib/supabase/services/user-service.ts:17-62 | after any sequence of actions `isLoading` is false if a refresh happened and as it started otherwise |
| AuthStore.Store.constructor | src/lib/supabase/services/user-service.ts:17-19 | the store starts with no user, no session and `isLoading` true |
| AuthStore.Store.SignIn | src/lib/supabase/services/user-service.ts:21-32 | the store moves as `AfterSignIn` says and the backend error is returned as is |
| AuthStore.Store.SignUp | src/lib/supabase/services/user-service.ts:34-48 | the store moves as `AfterSignIn` says and the backend error is returned as is |
| AuthStore.Store.SignOut | src/lib/supabase/services/user-service.ts:50-53 | the store moves as `AfterSignOut` says |
| AuthStore.Store.RefreshSession | src/lib/supabase/services/user-service.ts:55-62 | the store moves as `AfterRefresh` says |
| Dashboard.Networks | src/components/pages/home/index.tsx:64-105 | four networks, each with an explorer API URL and the environment's wallet token as key |
| Dashboard.ChainIdsDistinct | src/components/pages/home/index.tsx:64-105 | no two networks share a chain id |
| Dashboard.FindNetwork | src/components/pages/home/index.tsx:305 | a network found is in the list with the chain id asked for; none is found exactly when no network has that id |
| Dashboard.FindOwnChainId | src/components/pages/home/index.tsx:304-306 | with distinct chain ids, looking up a network's id finds that network |
| Dashboard.TokenBalances | src/components/pages/home/index.tsx:178-218 | two tokens for "0x1" and for "0x38", none for any other chain, every balance "0" |
| Dashboard.TokenBalancesIgnoreAddress | src/components/pages/home/index.tsx:217 | the token list depends on the network alone: any two addresses get the same list |
| Dashboard.RecentTransactions | src/components/pages/home/index.tsx:232-241 | at most ten transactions, a prefix of the explorer's list in its order, all of them when there are ten or fewer, and none without a truthy API URL and key or when the fetch fails or has no result |
| Dashboard.Refreshed | src/components/pages/home/index.tsx:243-249 | the refreshed record keeps the account, takes the new balance, the network used, that network's tokens and the network's recent transactions (at most ten) |
| Dashboard.FormatAddress | src/components/pages/home/index.tsx:272-274 | an address of ten or more characters shortens to thirteen |
| Dashboard.FormatAddressShape | src/components/pages/home/index.tsx:272-274 | for any length: the first up to six characters, "...", and the last up to four |
| Dashboard.FormatEmptyAddress | src/components/pages/home/index.tsx:272-274 | the empty address shortens to "..." |
| Dashboard.RestoreStep | src/components/pages/home/index.tsx:117-130 | restoring never touches `loading` or `error`; with nothing saved nothing changes; a saved record becomes the wallet data, connects, and selects its own network (the first network when it has none); an unreadable or null entry is removed and the connection flag kept |
| Dashboard.RefreshStep | src/components/pages/home/index.tsx:220-259 | a refresh never changes the selected network or the connection flag, and ends with `loading` false whenever there was wallet data |
| Dashboard.SwitchStep | src/components/pages/home/index.tsx:132-176 | without a browser wallet nothing changes; an accepted switch selects the network and, with wallet data, refreshes on it, and without wallet data changes nothing else; a refusal for any reason but an unknown chain only sets "Cannot switch to <name>" |
| Dashboard.SelectStep | src/components/pages/home/index.tsx:304-307 | a chain id that names no network triggers no switch and changes nothing |
| Dashboard.DisconnectStep | src/components/pages/home/index.tsx:261-266 | disconnecting drops the wallet data and the connection flag and keeps everything else: the stored session, `loading`, `error` and the selected network |
| Dashboard.RefreshNoOpWithoutWallet | src/components/pages/home/index.tsx:221 | without wallet data a refresh changes nothing |
| Dashboard.RefreshUpdatesAndSaves | src/components/pages/home/index.tsx:223-252 | a refresh with a balance makes the wallet data the refreshed record on the network used (account kept, new balance, that network's tokens, at most ten transactions in explorer order) and stores exactly that record under `walletSession` |
| Dashboard.NoTransactionsWithoutApi | src/components/pages/home/index.tsx:232-233 | a network lacking an API URL or key yields an empty transaction list |
| Dashboard.RefreshFailureReported | src/components/pages/home/index.tsx:253-258 | a failed balance read leaves wallet data and storage as they were and sets "Cannot update data." |
| Dashboard.RestoreFallsBackToFirstNetwork | src/components/pages/home/index.tsx:119-124 | a restored record without a network selects the first network and connects |
| Dashboard.RestoreDiscardsUnreadable | src/components/pages/home/index.tsx:119-128 | an unparseable or null saved entry is removed; a null entry also clears the wallet data; the connection flag and the selected network are kept |
| Dashboard.SwitchRefusedReportsError | src/components/pages/home/index.tsx:171-174 | a refused switch for any reason but an unknown chain only sets "Cannot switch to <name>" |
| Dashboard.AddRefusedReportsError | src/components/pages/home/index.tsx:167-170 | an unknown chain that the wallet refuses to add only sets "Cannot add network <name>" |
| Dashboard.AddedChainSwitches | src/components/pages/home/index.tsx:144-166 | an unknown chain that the wallet adds ends exactly as a direct switch, selecting the network |
| Dashboard.SelectKnownChain | src/components/pages/home/index.tsx:304-306 | selecting a supported chain id switches to that very network |
| Dashboard.Home.constructor | src/components/pages/home/index.tsx:109-113 | the page starts disconnected, not loading, without error, on the first network |
| Dashboard.Home.RestoreSession | src/components/pages/home/index.tsx:117-130 | the page state moves as `RestoreStep` says |
| Dashboard.Home.RefreshData | src/components/pages/home/index.tsx:220-259 | the page state moves as `RefreshStep` says |
| Dashboard.Home.SwitchNetwork | src/components/pages/home/index.tsx:132-176 | the page state moves as `SwitchStep` says |
| Dashboard.Home.SelectNetwork | src/components/pages/home/index.tsx:304-307 | the page state moves as `SelectStep` says |
| Dashboard.Home.Disconnect | src/components/pages/home/index.tsx:261-266 | the page state moves as `DisconnectStep` says |

## Left out

- Signature recovery (personal-message hashing and secp256k1 public-key recovery) is the parameter `recover`; only its result or its failure is modelled.
- `toLowerCase` is modelled for ASCII letters; other Unicode case mappings are not, which is enough for hexadecimal addresses.
- `decodeURIComponent` is the parameter `decode`; only its result or its exception is modelled.
- Database, auth backend, browser wallet and block explorer calls are inputs (`lookupFailed`, `insertError`, `AuthResponse`, `balance`, `SwitchOutcome`, `TxFetch`); a request that rejects inside `signIn`, `signUp`, `signOut` or `refreshSession`, which would skip the store update, is not modelled.
- The lookup-then-insert race between concurrent `findOrCreate` calls is not modelled; calls are sequential.
- New rows get their id from a counter; the database's own ids and `created_at` are not modelled.
- The email and password passed to `signIn` and `signUp` only reach the backend and are dropped.
- `JSON.parse`, `JSON.stringify` and local storage are reduced to the `Stored` datatype; a saved entry that parses to something other than null or a wallet record is not modelled.
- A block-explorer `result` that is not a list (an error string) is not modelled.
- A chain id equal to a property of JavaScript's object prototype (such as "toString") would make the token lookup return that property; chain ids here come from the network list.
- React renders asynchronously and batches state updates; the model applies each update at once, in program order.
- FormatAddress: `slice` is modelled on Dafny characters, not on JavaScript's UTF-16 code units; the two agree for the ASCII hexadecimal addresses the page shows.
- Balance formatting (`formatEther`, `toFixed`) and `formatTimestamp` are not modelled; the balance is the string the wallet returns.
- The response interceptor only logs, and `copyToClipboard`, the router redirect and the backend sign-out inside `disconnect`, the tab state and the rest of the JSX are not modelled.
- The URL origin and the query-string encoding of `redirectedFrom` are not modelled; a redirect is its path and that parameter.
- The middleware `matcher` pattern is applied by the framework and is not modelled.
- The password sign-in form, `userService.signIn`, the sign-in service wrapper and the wallet connection helpers are not part of this model.

## Findings

| source | as written | input that shows it | evidently intended | confidence | as-written member | corrected member |
|---|---|---|---|---|---|---|
| src/middleware.ts:22-34 | "/sign-in" is let through only without a `session` cookie; otherwise it falls to the protected-route test, which every path passes | pathname "/sign-in", no user, a stale `session` cookie: redirect to "/sign-in?redirectedFrom=/sign-in", and the same again on every follow-up request | the sign-in page stays open to anyone without a user | medium, not executed | Middleware.StaleCookieRedirectLoop | Middleware.MiddlewareCorrected |

`Middleware.CorrectedNoRedirectLoop` proves of the corrected guard that no
redirect points back at the requested path and that every redirect target is
let through.

# Rentany front end: favorites, item cards, home listings and sign-in

A Dafny model of the logic in the Rentany rental marketplace front end.

The favorite button is modelled as a class over a remote favorite store. It covers:
- whether an item is favorited;
- what a click does: send the visitor to sign-in, delete the first matching record, or create a record under the resolved email;
- the `isProcessing` flag, which disables the button while a toggle is in flight.

The item card is modelled as pure functions:
- drop empty media URLs;
- choose the primary media: first video, else first image, else a fixed picture;
- test for a video by its suffix, ignoring ASCII case;
- look up the category colour;
- decide the badges, the "not available" overlay and the location line.

The two home listings, featured items and recently viewed, are classes over the browser's local storage. Each covers:
- the load effect, including the demo favorite only the featured listing installs;
- the reload after a favorite changes;
- the render guard.

The sign-in page is a class whose two handlers follow their source step by step. Each handler is tied to a pure function that states its outcome:
- the email/password handler;
- one OAuth handler with the provider as a parameter, standing for both the Google and the Facebook handler;
- the error classifiers;
- the redirect of a signed-in visitor;
- the effect on the `reset` and `error` query parameters.

External calls become inputs:
- The identity provider's hooks become an `AuthHooks` value. What `signIn.create`, `setActive` and `authenticateWithRedirect` returned or threw become parameters.
- An HTTP response becomes `Ok` or `NotOk`.
- What `JSON.parse` makes of a stored string becomes a `StoredValue`.
- What `decodeURIComponent` returned, or that it threw, becomes a parameter.
- The clock reading becomes a parameter.

Router pushes, store calls, history replacement and timer scheduling are appended to an `effects` log, in the order the source makes them. The favorite toggle and the three sign-in handlers are split at their `await`s into one method per resumption, so the state while a call is pending is a model state:
- the toggle: `Click`, `StoreSettled`, `FavoriteChangeSettled`;
- the email handler: `SubmitEmail`, `CreateSettled`, `ActivationSettled`;
- the OAuth handlers: `StartOAuth`, `RedirectFailed`.

For each handler there is also a method that runs it to completion. The listings' `handleFavoriteChange` changes nothing before its one `await`, so its method takes how the parent's callback settled as a parameter.

The model follows the code where its behaviour is easy to misread:
- A thrown email sign-in error never navigates. Only the OAuth handlers treat "already signed in" as success.
- `onFavoriteChange` also runs when the matching record has no `id` and no store call is made.
- A click while `isProcessing` is ignored before the signed-in check, because the button is disabled.

Files:
- `common.dfy`: `Option`, JavaScript truthiness, ASCII case mapping, `includes`.
- `entities.dfy`: the records.
- `favorite_client.dfy`: the REST favorite store.
- `favorites.dfy`: the favorite button.
- `item_card.dfy`: the item card.
- `home_views.dfy`: what the two listings share.
- `featured_items.dfy` and `recently_viewed.dfy`: the two listings.
- `sign_in.dfy`: the sign-in page.

## Model

| member | source | states |
|---|---|---|
| Common.Contains | app/auth/signin/page.tsx:158 | `s.includes(sub)` holds iff `sub` occurs in `s` at some index |
| FavoriteClient.Created | entities/Favorite.ts:9-28 | the record created for a request carries the request's email and item and the server-assigned id |
| FavoriteClient.WithoutId | entities/Favorite.ts:30-43 | after a delete, exactly the records with another id remain, and none are added; a list without the id is returned unchanged |
| FavoriteClient.WithoutIdAppend | entities/Favorite.ts:30-43 | deleting from a concatenation deletes from each part, so the remaining records keep their order |
| FavoriteClient.RemoteFavorites.Create | entities/Favorite.ts:9-28 | succeeds iff the response is `Ok` (a 2xx whose JSON body parses); then the created record is appended, otherwise nothing changes |
| FavoriteClient.RemoteFavorites.Delete | entities/Favorite.ts:30-43 | succeeds iff the response is 2xx; then records with that id are removed, otherwise nothing changes |
| Favorites.IsFavorited | components/Favorites/FavoriteButton.tsx:26 | true iff some record has `item_id == itemId` |
| Favorites.IsFavoritedIgnoresOrder | components/Favorites/FavoriteButton.tsx:26 | two lists with the same records, in any order, agree on favorited |
| Favorites.FirstMatch | components/Favorites/FavoriteButton.tsx:40 | `find` returns a record iff the item is favorited, and it is the first record for the item |
| Favorites.FirstMatchUnique | components/Favorites/FavoriteButton.tsx:40 | the first matching index is unique |
| Favorites.ResolveEmail | components/Favorites/FavoriteButton.tsx:46-48 | the truthy `email`, else the truthy first `emailAddresses` entry, else empty |
| Favorites.PlanStoreCall | components/Favorites/FavoriteButton.tsx:39-53 | create iff not favorited, with the resolved email and the item id; otherwise delete with the first match's truthy id, or no call when that id is missing |
| Favorites.StoreAfter | entities/Favorite.ts:9-43 | the store after a settled call: unchanged on failure or with no call; a create appends one record with the assigned id, the request's item and email; a delete keeps exactly the records with another id |
| Favorites.ToggleRun | components/Favorites/FavoriteButton.tsx:32-62 | signed out: only the redirect to `/auth/signin`; signed in: no redirect, at most one store call, which is `PlanStoreCall`'s and is made whenever that plans one, a delete iff favorited; `onFavoriteChange` runs iff signed in, supplied, and the store call succeeded or none was made |
| Favorites.WithoutDistinctIdDropsOne | entities/Favorite.ts:30-43 | deleting an id that exactly one record carries removes exactly one record |
| Favorites.ToggleFlipsFavorite | components/Favorites/FavoriteButton.tsx:39-53 | with server ids on every record, distinct ids and one record per item, a successful toggle flips favorited, keeps every other item's record, adds no record for another item, removes exactly one record or adds exactly one, and leaves at most one record for the item |
| Favorites.FavoriteButton.constructor | components/Favorites/FavoriteButton.tsx:17-24 | starts idle, not processing, with the given props |
| Favorites.FavoriteButton.Favorited | components/Favorites/FavoriteButton.tsx:26 | the heart is filled iff `IsFavorited` holds of the current props |
| Favorites.FavoriteButton.Disabled | components/Favorites/FavoriteButton.tsx:73 | the control is disabled iff `isProcessing` |
| Favorites.FavoriteButton.Rerender | components/Favorites/FavoriteButton.tsx:17-23 | new `userFavorites` and `currentUser` replace the old ones; the item id, the callback's presence and `isProcessing` are kept |
| Favorites.FavoriteButton.Click | components/Favorites/FavoriteButton.tsx:28-53 | a click while `Disabled()` changes nothing; signed out, it logs the redirect and leaves `isProcessing` false; signed in, it logs the planned store call, or `FavoriteChanged` on the no-`id` path when a callback is supplied; `isProcessing` stays set while something is awaited and is false at once otherwise |
| Favorites.FavoriteButton.StoreSettled | components/Favorites/FavoriteButton.tsx:42-62 | the store changes as the settled call says; a failure is swallowed and ends the run; success moves on to the callback when one is supplied |
| Favorites.FavoriteButton.FavoriteChangeSettled | components/Favorites/FavoriteButton.tsx:55-62 | the callback settling, either way, clears `isProcessing` |
| Favorites.FavoriteButton.ToggleToCompletion | components/Favorites/FavoriteButton.tsx:28-63 | a whole run logs exactly `ToggleRun`, leaves the store as its one call says, and always ends with `isProcessing` false |
| ItemCard.CategoryColor | components/Items/ItemCard.tsx:101 | the table entry for the category, and the `other` entry exactly when there is none or the category is `other` |
| ItemCard.IsVideoUrl | components/Items/ItemCard.tsx:26 | true iff the URL ends in `.mp4`, `.mov` or `.webm`, ignoring ASCII case |
| ItemCard.IsVideoUrlIgnoresCase | components/Items/ItemCard.tsx:26 | upper-casing a URL does not change whether it is a video |
| ItemCard.NoDotBeforeSuffixIsNoVideo | components/Items/ItemCard.tsx:26 | a URL with no dot four or five characters from its end is not a video |
| ItemCard.IsVideoUrlLooksAtSuffixOnly | components/Items/ItemCard.tsx:26 | for URLs of five characters or more, a prefix never changes the answer |
| ItemCard.DropFalsy | components/Items/ItemCard.tsx:54-55 | the result is no longer than the input and holds exactly its non-empty URLs |
| ItemCard.DropFalsyAppend | components/Items/ItemCard.tsx:54-55 | filtering distributes over concatenation, so relative order is kept |
| ItemCard.DropFalsyIdempotent | components/Items/ItemCard.tsx:54-55 | filtering twice is filtering once |
| ItemCard.DropFalsyHead | components/Items/ItemCard.tsx:54-57 | the filtered list is non-empty iff a non-empty URL exists, and its head is the first one |
| ItemCard.PrimaryMedia | components/Items/ItemCard.tsx:57 | the first non-empty video, else the first non-empty image, else the default picture; never empty |
| ItemCard.View | components/Items/ItemCard.tsx:58-144 | video player iff the primary media has a video suffix, else optimised image; the category class; instant badge iff `instant_booking`; video badge iff a valid video exists; overlay iff unavailable; location or "Location not specified" |
| ItemCard.ImageWithVideoSuffixPlays | components/Items/ItemCard.tsx:58-61 | an image URL ending in `.MOV` plays as a video, with no video badge |
| ItemCard.VideoWithoutSuffixIsImage | components/Items/ItemCard.tsx:58-61 | a video URL without a suffix is shown as an image, with the video badge |
| HomeViews.StorageKey | components/Home/FeaturedItems.tsx:81 | the key is `favorites_` followed by the email |
| HomeViews.StorageKeyInjective | components/Home/FeaturedItems.tsx:81 | distinct emails have distinct keys |
| HomeViews.ReadFavorites | components/Home/FeaturedItems.tsx:78-86 | no lookup without a truthy first email; loaded iff the key holds parsable JSON; missing iff it is absent or empty |
| HomeViews.ReloadedFavorites | components/Home/FeaturedItems.tsx:119-134 | the stored list replaces the current one only when it was read; otherwise the current list stays |
| HomeViews.ReloadKeepsListWithoutEntry | components/Home/FeaturedItems.tsx:119-134 | with no cache entry, the reload never clears the list |
| HomeViews.ShouldRender | components/Home/FeaturedItems.tsx:137-145 | renders iff loaded, signed in, done loading and holding an item |
| FeaturedItems.DemoFavorites | components/Home/FeaturedItems.tsx:88-100 | one record, id `fav_1`, for item "1" (the first mock item), under the user's email |
| FeaturedItems.AfterLoad | components/Home/FeaturedItems.tsx:37-112 | nothing until loaded; signed out only clears `isLoading`; signed in gives the three mock items, the stored list, the demo record when the entry is missing, or the prior list when there is no email or the parse fails; renders iff loaded and signed in |
| FeaturedItems.FeaturedItemsView.constructor | components/Home/FeaturedItems.tsx:31-35 | empty lists and `isLoading` true |
| FeaturedItems.FeaturedItemsView.HooksChanged | components/Home/FeaturedItems.tsx:31-32 | the hook values are replaced |
| FeaturedItems.FeaturedItemsView.LoadEffect | components/Home/FeaturedItems.tsx:37-112 | the new state is `AfterLoad` of the old; once loaded, the listing renders iff signed in; storage is unchanged |
| FeaturedItems.FeaturedItemsView.Renders | components/Home/FeaturedItems.tsx:137-145 | `ShouldRender` of the current state |
| FeaturedItems.FeaturedItemsView.HandleFavoriteChange | components/Home/FeaturedItems.tsx:114-135 | calls the parent callback once when supplied; a rejection skips the reload; otherwise the list is `ReloadedFavorites`; storage is unchanged |
| RecentlyViewed.AfterLoad | components/Home/RecentlyViewed.tsx:37-77 | as the featured load, with the single mock item and no demo seed: anything but a parsed entry keeps the prior list |
| RecentlyViewed.SeedIsTheOnlyDifference | components/Home/RecentlyViewed.tsx:63-66 | the two listings load the same favorites except when the entry is missing, where only the featured one has the one demo record |
| RecentlyViewed.RecentlyViewedView.constructor | components/Home/RecentlyViewed.tsx:31-35 | empty lists and `isLoading` true |
| RecentlyViewed.RecentlyViewedView.HooksChanged | components/Home/RecentlyViewed.tsx:31-32 | the hook values are replaced |
| RecentlyViewed.RecentlyViewedView.LoadEffect | components/Home/RecentlyViewed.tsx:37-77 | the new state is `AfterLoad` of the old; once loaded, the listing renders iff signed in; storage is unchanged |
| RecentlyViewed.RecentlyViewedView.Renders | components/Home/RecentlyViewed.tsx:102-110 | `ShouldRender` of the current state |
| RecentlyViewed.RecentlyViewedView.HandleFavoriteChange | components/Home/RecentlyViewed.tsx:79-100 | calls the parent callback once when supplied; a rejection skips the reload; otherwise the list is `ReloadedFavorites`; storage is unchanged |
| SignIn.EmailErrorMessage | app/auth/signin/page.tsx:95-104 | structured error: first entry's message or the retry text; `Error`: its message; anything else: the credentials text; empty only for an `Error` with an empty message |
| SignIn.ClassifyOAuthError | app/auth/signin/page.tsx:146-171 | already signed in iff code `session_exists` or message contains "already signed in" (structured), or message contains "already signed in" or "session" (`Error`); otherwise the first entry's truthy message or "Failed to sign in with <Provider>. Please try again." (structured), `Authentication failed: ` + message (`Error`), or the configuration hint (anything else), never empty |
| SignIn.VerdictIgnoresProvider | app/auth/signin/page.tsx:213-238 | Google and Facebook agree on the verdict; they differ only in the two texts that name the provider |
| SignIn.SessionInMessageCountsAsSignedIn | app/auth/signin/page.tsx:157-161 | any `Error` whose message contains "session" sends the user home |
| SignIn.EmailSignIn | app/auth/signin/page.tsx:50-106 | signed in: push `/home` only; then not ready, then missing field, with no provider call; otherwise `signIn.create` first, `setActive` exactly for a complete status with a truthy session id, with that id, push `/home` iff complete and activated (or no session id); loading stays on iff no error; the verification text, or `EmailErrorMessage` of what `signIn.create` or `setActive` threw, otherwise |
| SignIn.RedirectCall | app/auth/signin/page.tsx:133-141 | the provider's strategy, `origin + "/auth/sso-callback"` and `origin + "/home"` |
| SignIn.OAuthSignIn | app/auth/signin/page.tsx:108-173 | signed in: push `/home` only; not loaded, then no sign-up object, with no provider call; otherwise the redirect call first, push `/home` iff it threw an already-signed-in error, `ClassifyOAuthError`'s message iff it threw another, loading stays on iff it did not throw |
| SignIn.ReadParams | app/auth/signin/page.tsx:27-42 | `reset=success` sets the banner and schedules its reset after 5000 ms; a truthy decodable `error` is shown and the URL replaced by the pathname; otherwise the error text is kept |
| SignIn.CompleteSignInScenario | app/auth/signin/page.tsx:80-85 | `a@b.com`/`x` with a complete result and session `s1`: create, activate `s1`, push `/home` |
| SignIn.NeedsVerificationScenario | app/auth/signin/page.tsx:86-90 | a status other than complete: verification message, loading off, no navigation |
| SignIn.SignInPage.constructor | app/auth/signin/page.tsx:14-18 | no error, not loading, no banner, empty fields |
| SignIn.SignInPage.TypeEmail | app/auth/signin/page.tsx:367 | the email field holds the typed text |
| SignIn.SignInPage.TypePassword | app/auth/signin/page.tsx:400 | the password field holds the typed text |
| SignIn.SignInPage.HooksChanged | app/auth/signin/page.tsx:9-11 | the hook values are replaced |
| SignIn.SignInPage.RedirectEffect | app/auth/signin/page.tsx:21-25 | pushes `/home` iff signed in with a truthy user id |
| SignIn.SignInPage.SearchParamsEffect | app/auth/signin/page.tsx:27-42 | the new state is `ReadParams`; replacing the history entry empties the query |
| SignIn.SignInPage.ShowsSuccessBanner | app/auth/signin/page.tsx:275 | the password-reset banner shows iff `success` holds |
| SignIn.SignInPage.SuccessTimerFired | app/auth/signin/page.tsx:31 | the success banner no longer shows; nothing else changes |
| SignIn.SignInPage.ShowsErrorBanner | app/auth/signin/page.tsx:282 | the error banner shows iff the error text is truthy |
| SignIn.SignInPage.ButtonsDisabled | app/auth/signin/page.tsx:295 | the OAuth and submit buttons are disabled iff the provider is not loaded or `loading` |
| SignIn.SignInPage.FieldsDisabled | app/auth/signin/page.tsx:369 | the email and password inputs are disabled iff `loading` |
| SignIn.SignInPage.SubmitEmail | app/auth/signin/page.tsx:50-77 | the guards end the handler as `EmailSignIn` says; past them, the error is cleared, `loading` set and `signIn.create` issued with the form's fields; while it is pending every control is disabled |
| SignIn.SignInPage.CreateSettled | app/auth/signin/page.tsx:74-105 | a throw shows `EmailErrorMessage` and clears `loading`; another status shows the verification text and clears `loading`; complete with a truthy session id calls `setActive` with it; complete without one pushes `/home` |
| SignIn.SignInPage.ActivationSettled | app/auth/signin/page.tsx:83-105 | `setActive` resolving pushes `/home`; throwing shows `EmailErrorMessage` and clears `loading` |
| SignIn.SignInPage.HandleEmailSignIn | app/auth/signin/page.tsx:50-106 | one whole run: error, loading and effects become those of `EmailSignIn`, and no call is left pending |
| SignIn.SignInPage.StartOAuth | app/auth/signin/page.tsx:108-141 | the guards end the handler as `OAuthSignIn` says; past them, the error is cleared, `loading` set and `RedirectCall` issued; while it is pending every control is disabled |
| SignIn.SignInPage.RedirectFailed | app/auth/signin/page.tsx:142-172 | `loading` is cleared; an already-signed-in verdict pushes `/home` and leaves the error; any other shows `ClassifyOAuthError`'s message |
| SignIn.SignInPage.HandleOAuthSignIn | app/auth/signin/page.tsx:108-173 | one whole click: error, loading and effects become those of `OAuthSignIn`; the redirect stays pending iff it did not throw; past the guards, the error banner shows iff the verdict is an error |
| SignIn.ResetBannerScenario | app/auth/signin/page.tsx:27-32 | `?reset=success`: the banner shows at once and is gone once the timer fires |
| SignIn.ErrorParamScenario | app/auth/signin/page.tsx:34-41 | `?error=Invalid%20credentials`, which `get` returns as "Invalid credentials": that text is shown and `error` leaves the address bar |

## Left out

- The identity provider itself (`useSignIn`, `useSignUp`, `useAuth`, `useUser`, `signIn.create`, `setActive`, `authenticateWithRedirect`): its hook values and each call's result or thrown value are inputs.
- `fetch` and the favorite API: a response is `Ok` or `NotOk`. The server's created record, with its assigned id, is an assumed REST contract. `Favorite.getAll` and `User.getCurrent` are never called by the modelled components.
- `JSON.parse`: a stored string is `Json(records)`, `Unparsable` or `EmptyText`. A stored value that parses to something other than an array of records (say `null`) is not modelled.
- `decodeURIComponent`, `window.history.replaceState`, `window.location` and the router: the decoded text is an input; navigation and history changes are logged effects.
- `optimizeCardImage`: the card records only that the original URL goes to the optimiser.
- `console.log` and `console.error` calls, including the "SignIn object is not available" effect: logging only.
- Timers and async scheduling: the 5-second `setTimeout` is the explicit `SuccessTimerFired` event. Clicks racing across tabs or components are out of scope.
- SignIn.SignInPage.SubmitEmail and SignIn.SignInPage.StartOAuth require that no sign-in call is pending, because every control is disabled while one is. Starting a second handler during the `await` of the first is therefore not modelled.
- The listings' `handleFavoriteChange` is not split at its `await`: nothing changes before it, so no intermediate state is lost. An event arriving while the parent's callback is pending, such as a reload of the user, is not interleaved.
- `Favorite.create` also throws when a 2xx response's body is not JSON (`response.json()` rejects). The model folds that case into `NotOk`, so `Ok` means a 2xx with a parsable body. In that case the server has stored the record, but `Create` with `NotOk` leaves `records` unchanged, so the model's store then lags the server's.
- A `decodeURIComponent` throw on the `error` query parameter is an uncaught `URIError` that escapes the effect. The model only keeps the page's previous state and does not model the escaping exception. Because `searchParams.get` has already decoded the value once, the second decode throws for any text that still holds a `%` not followed by two hex digits: `?error=100%25` reaches it as `100%`.
- Favorites.FavoriteButton.Rerender: `itemId` and whether `onFavoriteChange` was passed are fixed at construction. A button keeps its item and its callback for its whole life, because the listings key each card by item id.
- `typeof window !== 'undefined'` checks: the model runs in the browser, where they always hold.
- `daily_rate` is an integer here; it is only displayed, never computed with.
- `null` or non-string entries in `images`/`videos`: URLs are strings, with `""` as the only falsy one, so `typeof url === 'string'` always holds.
- Category names such as `constructor` that name inherited object properties: the colour table is a plain map.
- A structured error whose `errors` property is not an array: when it is `null` or `undefined`, the source's `errors[0]` throws inside its own catch; when it is a string, a number or a plain object, `errors[0]?.message` is a character or `undefined` and the ordinary retry text shows. Neither case is modelled; `errors` is always a sequence of entries.
- The pages `app/home/page.tsx` and `app/favorites/page.tsx` (server-side session gates), `app/home/home-content.tsx` (filter state with no filtering logic) and `components/layout/Header.tsx`: presentational or trivial.
- JSX, styling, animation and translated texts: presentational.
- Favorites.ResolveEmail: collapses a missing email and an empty one into `""`, since the request body then carries no usable email either way.

# AgroGuard application shell, modelled in Dafny

AgroGuard is a single-page agriculture-assistance web app. Its top-level
component (`App.tsx`) is a small state machine. It keeps the current page,
a logged-in flag, the signed-in user's profile and an in-memory cart. It
persists the session to the browser's `localStorage` under the keys
`agro_isLoggedIn` and `agro_user`. On every render it picks one top-level
view: the landing page, the sign-in page, or the authenticated chrome around
one inner page. This project models that shell and proves what it does.

Modules (one per component of the shell):

- `wrappers.dfy`, module `Wrappers`: `Option` (JavaScript's `null`) and `Result`.
- `profile.dfy`, module `Profile`: the `UserProfile` record of `types.ts`, the fixed
  location, the avatar URL built from the name, and the profile created at sign-in.
- `codec.dfy`, module `Codec`: the stored text of a profile. This stands in for
  `JSON.stringify`/`JSON.parse`. It is proved to round-trip both ways.
- `cart.dfy`, module `Cart`: append by spread and remove by index filter, as pure functions on `seq`.
- `storage.dfy`, module `Storage`: the two keys, the startup read (`LoadSession`), the
  persistence step (`Persist`), and a `LocalStorage` class whose `entries` map its
  methods change in place.
- `shell.dfy`, module `Shell`: the shell as values. It has the pages, the state, the render
  dispatch (`Render`), the callbacks each screen hands out (`Offers`), one
  transition per callback (`Step`), and the store-level transition (`WorldStep`),
  which also models when React runs the persistence effect. It also proves
  invariants over every run of offered events from startup (`Run`, `ReachableStates`).
- `app.dfy`, module `App`: the class `AppShell`. Its fields are the ones the handlers
  overwrite. Each method's postcondition gives the new fields and ties them to `Step`.
  `Dispatch` ties one callback plus the effect to `WorldStep`.

Where the code differs from what a reader might expect, the model follows the code:

- `navigate` has no guard. `navigate(Auth)` while signed in sets the page to Auth.
  The render then shows the chrome with no inner view (`Shell.GoSetsPage`). There is
  no redirect to the dashboard.
- The flag and the profile are not guaranteed to agree. Startup reads them
  independently, so a stored flag `"true"` with no stored profile gives a signed-in
  shell with no user (`Shell.StartupSplitsSession`). Sign-in and sign-out re-establish
  the agreement, and every event keeps it once it holds (`Shell.StepKeepsAgreement`).
- Sign-out does not empty the in-memory cart. It clears the store, and the cart is never
  stored (`Shell.SignOutState`).
- Startup treats an empty stored profile text as no profile, because `saved ? … : null`
  tests truthiness. Any other text that does not parse makes startup fail
  (`Storage.LoadSession` returns `Err`; the `AppShell` constructor requires success).
- The effect's dependency list means the store is rewritten only when the flag or the
  user changed. Sign-out from a session that already had flag false and no user leaves the
  store empty rather than `{agro_isLoggedIn: "false"}`. Both stores read back as
  signed out (`Shell.SignOutStore`). That case cannot happen in a run from startup,
  because the chrome, which holds the sign-out button, is shown only to a signed-in shell
  (`Shell.ReachableStates`).

The clock is a parameter: sign-in takes the join date as an argument, standing in for
`new Date().toLocaleDateString()`.

## Model

| member | source | states |
|---|---|---|
| `Profile.AvatarUrlInjective` | App.tsx:48 | the avatar URL is a function of the name alone that tells names apart: equal URLs iff equal names |
| `Codec.DecodeEncode` | App.tsx:34 | a stored profile text reads back as the same profile |
| `Codec.EncodeDecode` | App.tsx:28 | every text that parses as a profile is the stored text of that profile |
| `Codec.EncodeNonEmpty` | App.tsx:28 | a stored profile text is never empty, so the truthiness test at startup always parses it |
| `Cart.Added` | App.tsx:131 | adding gives the old cart followed by exactly the new item |
| `Cart.KeepOthersDropsAt` | App.tsx:63 | filtering by position drops exactly the element at the index when it is in range, and nothing otherwise |
| `Cart.RemovedInRange` | App.tsx:62-64 | for 0 <= i < length, removal gives `cart[..i] + cart[i+1..]`, one element shorter |
| `Cart.RemovedOutOfRange` | App.tsx:62-64 | for any other index, negative ones included, the cart is unchanged |
| `Cart.AddAddRemove` | App.tsx:62-64 | adding a then b and removing position 0 gives [b]; removing position 99 of [a, b] changes nothing |
| `Cart.AddedKeepsDuplicates` | App.tsx:131 | every add raises the item's count in the cart by exactly one, also when it is already present (no merging) |
| `Storage.LoadSessionMeaning` | App.tsx:22-30 | startup fails iff a non-empty profile entry is not the encoding of any profile; otherwise the flag is set iff the stored flag is "true", there is no user iff the entry is missing or empty, and the user is the profile whose encoding is stored |
| `Storage.Persist` | App.tsx:32-36 | the flag key holds "true"/"false" matching the flag, the profile key is present iff there is a user and then holds its encoding, and every other key is unchanged |
| `Storage.ReloadRestoresSession` | App.tsx:22-36 | reading the store after the persistence step gives back exactly the persisted session |
| `Storage.PersistIdempotent` | App.tsx:32-36 | running the persistence step twice equals running it once |
| `Storage.SignedOutStore` | App.tsx:55-60 | the cleared store after persisting the signed-out session is exactly `{agro_isLoggedIn: "false"}` |
| `Storage.EmptyStoreIsSignedOut` | App.tsx:22-30 | an empty store starts a signed-out shell with no user |
| `Storage.LocalStorage.Get` | App.tsx:24-27 | `getItem` returns the entry for the key or None |
| `Storage.LocalStorage.SetItem` | App.tsx:33-34 | `setItem` maps the key to the value and leaves the other entries |
| `Storage.LocalStorage.RemoveItem` | App.tsx:35 | `removeItem` deletes only that key |
| `Storage.LocalStorage.Clear` | App.tsx:58 | `clear` empties the whole store |
| `Shell.Render` | App.tsx:70-136 | Landing is shown iff the page is Landing; Auth iff the page is Auth and signed out; otherwise the chrome with the page as active page and at most one inner view, the one for the page, and none when the page is Auth |
| `Shell.GoSetsPage` | App.tsx:38-41 | navigation sets the page to exactly the target and changes nothing else; Auth while signed in renders the chrome with no inner view |
| `Shell.SignInState` | App.tsx:43-53 | sign-in sets the flag, puts the new profile in place, opens the dashboard, keeps the cart and renders the dashboard with that user |
| `Shell.SignOutState` | App.tsx:55-60 | sign-out clears the flag and the user, returns to Landing and keeps the cart |
| `Shell.CartEvents` | App.tsx:62-68 | add appends, remove deletes by position or does nothing out of range, clear empties the cart; nothing else changes |
| `Shell.StepKeepsAgreement` | App.tsx:43-60 | sign-in and sign-out make the flag agree with the presence of a user, and every event keeps that agreement |
| `Shell.StartupSplitsSession` | App.tsx:22-30 | a store with flag "true" and no profile starts signed in with no user, and the start button shows the dashboard with no user |
| `Shell.OfferedStepStaysPublic` | App.tsx:70-76 | every callback the displayed screen offers keeps a signed-out shell on Landing or Auth |
| `Shell.MountState` | App.tsx:22-36 | startup succeeds iff the store reads; it is on Landing with an empty cart and the stored session, and the first effect leaves the store mirroring it |
| `Shell.WorldStepKeepsMirror` | App.tsx:32-60 | every event, with the effect when React runs it, keeps the store in agreement with the session |
| `Shell.SignOutStore` | App.tsx:55-60 | after sign-out the store is `{agro_isLoggedIn: "false"}`, or empty when nothing changed, and either way reads back as signed out |
| `Shell.SignInStore` | App.tsx:43-53 | after sign-in and the effect, a reload restores the signed-in session with the new profile |
| `Shell.RunKeepsGood` | App.tsx:32-136 | a run of offered events keeps the store mirroring the session and a signed-out shell on the public pages |
| `Shell.ReachableStates` | App.tsx:22-136 | in every state reachable from startup the store mirrors the session, and the chrome is shown only when signed in |
| `App.AppShell.constructor` | App.tsx:22-30 | the shell starts on Landing with an empty cart, signed in iff the stored flag is "true", with the session the store holds |
| `App.AppShell.PersistSession` | App.tsx:32-36 | the store becomes `Persist` of the old store and the session, and reads back as that session |
| `App.AppShell.Navigate` | App.tsx:38-41 | the page becomes exactly the argument; flag, user and cart are unchanged |
| `App.AppShell.OnStart` | App.tsx:71 | the page becomes Dashboard when signed in and Auth otherwise; nothing else changes |
| `App.AppShell.Login` | App.tsx:43-53 | the user becomes the sign-in profile, the flag is set, the page is Dashboard, the cart is unchanged |
| `App.AppShell.Logout` | App.tsx:55-60 | flag cleared, user gone, page Landing, cart unchanged, store emptied |
| `App.AppShell.AddToCart` | App.tsx:131 | the cart becomes the old cart plus the item; nothing else changes |
| `App.AppShell.RemoveFromCart` | App.tsx:62-64 | the cart loses the element at an in-range index and is unchanged otherwise; nothing else changes |
| `App.AppShell.ClearCart` | App.tsx:66-68 | the cart becomes empty; nothing else changes |
| `App.AppShell.Dispatch` | App.tsx:32-136 | one callback followed by the effect, when it runs, changes the shell and the store exactly as `WorldStep` says |

## Left out

- Rendering: the JSX, layout, styling, header and mobile-nav markup. This is display only. The header's first-name split (App.tsx:92) is not modelled.
- `window.scrollTo(0, 0)` in `navigate`: a browser side effect with no state the model can observe.
- `new Date().toLocaleDateString()`: clock and locale dependent. The join date is a parameter of sign-in.
- `Codec.Encode`: agrees with `JSON.stringify` for a profile built at sign-in, except for control characters (below U+0020). JSON writes those as escapes; this codec writes them as they are. `JSON.stringify` also escapes lone surrogates, which a Dafny `char` cannot hold.
- `Codec.Decode`: accepts exactly the texts `Encode` writes, and that set differs from what `JSON.parse` accepts in both directions.
  - Narrower: JSON that `JSON.parse` would also accept is treated here as unparsable. That includes whitespace, other member orders, other escapes, or a non-object such as `null`.
  - Wider: a stored text whose strings hold a raw control character, such as a line feed in the name, decodes here. `JSON.parse` throws a SyntaxError on it, so the source fails at startup (App.tsx:28) while the model starts normally.
- The child pages (Landing, Auth, Dashboard, DiseaseDetection, Marketplace, Chatbot) and the Sidebar: not part of this model. The shell only hands them props. The Sidebar may navigate to any page, so the chrome is modelled as offering navigation to every page.
- The other declarations of `types.ts`: they carry no behaviour.
- The string values of the `Page` enum: the shell never persists or compares them.
- Non-integer indices passed to `removeFromCart`: JavaScript numbers such as 1.5 or NaN match no position and leave the cart unchanged. The model takes `int` indices.
- React scheduling: each callback is one render, handled to completion before the next. The inline `addToCart` appends to the cart captured at render time. Two calls within one event would therefore keep only the second item. The model has one call per event and does not capture this.

# Vanity wallet dashboard — a Dafny model

The dashboard is a mock wallet manager. It shows a list of wallets and the active
wallet's balance. A user can create an ordinary wallet, or ask for a "vanity" wallet
through a three-step modal. The modal steps are: choose a chain, choose a style
(a recommended address from a pool, or a custom prefix/suffix), and confirm custody.
All of this logic sits in event handlers and render expressions. Nothing is derived
cryptographically: vanity addresses are assembled from strings.

This project lifts those rules into pure Dafny functions over immutable datatypes.
Every random number, timestamp and random string becomes a parameter. The modules are:

- `JsValues`, `JsStrings`, `JsArrays`: the JavaScript semantics the code relies on.
  This covers `undefined`, falsy `""` and `0` under `||`, `String.prototype.slice`
  with negative and out-of-range indices (section 22.1.3 of ECMA-262), `includes`,
  ASCII `toUpperCase`, and `Array.prototype.filter`.
- `Types` and `Constants`: the records of `types.ts` and the fixed data of
  `constants.tsx`. That data is the four initial wallets and the vanity requirement
  table.
- `Tiers`: which requirement row (tier) the user has reached on a chain, and the
  digit-count fallbacks.
- `Recommend`: `generateRandomVanity` and a batch of ten recommendations.
- `Modal`: the modal as a state machine. It covers steps, the refresh budget, search,
  sanitised inputs, the confirm payload, and invariants over any run of actions.
- `App`: the dashboard state. It covers the active-wallet lookup, creating wallets,
  composing a vanity wallet's address and display address, the three status
  transitions, the row's address text, the custody banner, and a reachability
  invariant.

Three behaviours of the code are worth noting:

- When no tier is found, recommendations are generated with 3 digits while 4 digits are
  shown and used as an input length (`Tiers.DigitFallbacksDisagree`). With the shipped
  table this never happens for a non-negative volume (`Tiers.TableNeverFallsBack`).
- The custody banner's condition (custodied and not vanity) holds for no wallet the
  dashboard can ever hold. Every custodied wallet it creates is a vanity wallet, so
  the banner is never shown (`App.CustodyBannerNeverShown`).
- The modal defines `handleRefresh` but binds it to no element, and the refresh icon
  it imports is never rendered. In the program as written no refresh can happen, and
  the daily budget stays at 5. The model keeps refresh as the `PressRefresh` action so
  that its rules are stated, and `Modal.Run` shows that a run without that action
  leaves the budget unchanged.

## Model

| member | source | states |
|---|---|---|
| `JsStrings.Slice` | App.tsx:319-321 | `slice(start, end)` has length max(0, to − from) after negative indices count from the end and both are clamped into the string; character k of the result is character from + k of the input |
| `JsStrings.SliceTail` | App.tsx:89 | `slice(-n)` for n > 0 is the suffix of length min(n, \|s\|); a string shorter than n is returned whole |
| `JsStrings.Includes` | App.tsx:89 | `s.includes(t)` holds iff `t` occurs in `s` at some position |
| `JsValues.OrElse` | App.tsx:82-87 | `o \|\| fallback` keeps `o` only when it is defined and non-empty, else gives the fallback; a non-empty fallback gives a non-empty result |
| `JsArrays.Filter` | components/VanityApplicationModal.tsx:96-98 | the filtered sequence holds only elements of the input that pass, and keeps every one that passes |
| `JsArrays.FilterCounts` | components/VanityApplicationModal.tsx:96-98 | a filter keeps each passing element exactly as many times as the input holds it and drops every failing one, so its multiset is contained in the input's |
| `JsArrays.FilterIsSubsequence` | components/VanityApplicationModal.tsx:96-98 | a filter result is an order-preserving subsequence of its input |
| `JsArrays.FilterFilter` | components/VanityApplicationModal.tsx:66-67 | filtering by chain and then by volume equals one filter by the conjunction |
| `JsArrays.FilterLast` | components/VanityApplicationModal.tsx:68-70 | the last element a filter keeps is the input's last passing element: no later element passes |
| `Constants.RequirementsOrdered` | constants.tsx:51-60 | within each chain, later rows need strictly more volume and grant strictly more digits (EVM 6/7/8, Solana 3/4/5) |
| `Constants.RequirementsHaveZeroTier` | constants.tsx:53-57 | each chain has a row needing zero volume |
| `Constants.InitialIdsDistinct` | constants.tsx:4-32 | initial wallet ids are pairwise distinct, and one of them is the initial selection `'w1'` |
| `Constants.InitialWalletsWellFormed` | constants.tsx:4-32 | every initial address is non-empty, so the avatar's first character exists; no initial wallet is custodied or vanity |
| `Tiers.MaxAllowed` | components/VanityApplicationModal.tsx:66-70 | a selected tier is a table row of the chosen chain whose volume the user reaches |
| `Tiers.MaxAllowedIsLastReached` | components/VanityApplicationModal.tsx:66-70 | there is no tier iff no row of the chain is reached; otherwise the tier is the row at index i, which is reached, and no later row of the chain is reached |
| `Tiers.MaxAllowedIsHighest` | constants.tsx:51-60 | for a table ordered per chain, no reached row of the chain needs more volume or grants more digits than the selected tier |
| `Tiers.ZeroTierIsReached` | components/VanityApplicationModal.tsx:66-70 | with a zero-volume row on the chain, any non-negative volume finds a tier |
| `Tiers.GenerationDigits` | components/VanityApplicationModal.tsx:74 | generation digits are the tier's digits, or 3 when there is no tier |
| `Tiers.DisplayDigits` | components/VanityApplicationModal.tsx:229 | displayed and input-length digits are the tier's digits, or 4 when there is no tier |
| `Tiers.DigitFallbacksDisagree` | components/VanityApplicationModal.tsx:74 | the two digit counts differ exactly when there is no tier (or a zero-digit tier), and then 3 are generated while 4 are shown |
| `Tiers.TableNeverFallsBack` | components/VanityApplicationModal.tsx:83 | with the shipped table, every non-negative volume finds a tier, so both digit counts agree |
| `Tiers.DashboardUserTiers` | App.tsx:41 | for volume 1,280,000 the tier is the 4-digit row on Solana and the 7-digit row on EVM |
| `Recommend.PatternsWellFormed` | components/VanityApplicationModal.tsx:30-41 | each of the ten patterns has 3 or 4 characters, all digits or capital letters |
| `Recommend.Generate` | components/VanityApplicationModal.tsx:27-51 | a recommendation is `0x` (on EVM only), then the pattern, then padding `0` (EVM) or `x` up to max(\|p\|, digits) characters, then `..`, then the pattern |
| `Recommend.GeneratedSplitsAtDots` | components/VanityApplicationModal.tsx:46-50 | every recommendation contains `..`, and no dot occurs before position max(\|p\|, digits) (+2 on EVM), so the segment before the first `..` has exactly that length |
| `Recommend.Batch` | components/VanityApplicationModal.tsx:84 | a batch holds exactly ten recommendations, one per pattern choice |
| `Modal.BatchHasDots` | components/VanityApplicationModal.tsx:75 | every address of a batch contains `..` |
| `Modal.Regenerate` | components/VanityApplicationModal.tsx:72-79 | the open effect installs ten recommendations built with the tier's generation digits, selects the first, and changes nothing else |
| `Modal.Refresh` | components/VanityApplicationModal.tsx:81-89 | with budget ≤ 0 refresh is a no-op; otherwise the budget drops by exactly 1, ten new recommendations are installed, each the recommendation for its pattern choice at the tier's generation digits, the first is selected, search is cleared, and nothing else changes |
| `Modal.Next` | components/VanityApplicationModal.tsx:93 | next never exceeds step 3, advances by one below 3, is a no-op at 3, and touches only the step |
| `Modal.Prev` | components/VanityApplicationModal.tsx:94 | prev never goes below step 1, goes back one above 1, is a no-op at 1, and touches only the step |
| `Modal.Filtered` | components/VanityApplicationModal.tsx:96-98 | the shown list is an order-preserving subsequence of the recommendations, holding only recommendations that match the query case-insensitively, each matching one as many times as the batch holds it; an empty query shows them all |
| `Modal.Sanitize` | components/VanityApplicationModal.tsx:254 | the sanitised input holds only `A-Z` and `0-9`, is a subsequence of the upper-cased input, and keeps every upper-cased letter and digit as many times as it occurs there |
| `Modal.SanitizeIdempotent` | components/VanityApplicationModal.tsx:270 | sanitising twice equals sanitising once |
| `Modal.ConfirmPayload` | components/VanityApplicationModal.tsx:364 | the payload has `text` iff the style is recommended, and `prefix`/`suffix` iff it is custom; each carries the modal's selected address or inputs |
| `Modal.Step` | components/VanityApplicationModal.tsx:137-270 | each handler changes only what it owns: choosing a chain, style or search text sets just that field; picking a shown address selects that address, which is one of the recommendations and matches the search, and picking past the shown list does nothing; prefix and suffix edits store exactly the sanitised input; refresh and the open effect install exactly the batch `Refresh` and `Regenerate` describe; only refresh touches the budget |
| `Modal.Run` | components/VanityApplicationModal.tsx:81-89 | a run of actions with no refresh among them leaves the refresh budget exactly where it was |
| `Modal.StepKeepsInv` | components/VanityApplicationModal.tsx:54-98 | any single action keeps the invariant and never raises the refresh budget. The invariant: step in 1..3; budget in 0..5; no batch and an empty selection, or ten recommendations with the selection among them; sanitised inputs |
| `Modal.RunKeepsInv` | components/VanityApplicationModal.tsx:54-98 | any run of actions keeps that invariant and never raises the refresh budget |
| `Modal.InitialRunStaysInRange` | components/VanityApplicationModal.tsx:54-60 | from the initial modal (step 1, budget 5), the step stays in 1..3 and the budget in 0..5 |
| `Modal.RunKeepsPoolDots` | components/VanityApplicationModal.tsx:75-86 | once every recommendation and the selection contain `..`, they keep doing so under any run of actions |
| `App.FindIndex` | App.tsx:45 | the lookup returns the first index whose wallet has the id, or none when no wallet has it |
| `App.ActiveWallet` | App.tsx:45 | the active wallet is undefined iff the list is empty; it is the first wallet carrying the selected id when some wallet does, and the first wallet otherwise |
| `App.ActiveWalletIsUnique` | App.tsx:45 | with distinct ids, the active wallet is the unique wallet carrying the selected id |
| `App.Abbreviate` | App.tsx:320 | for an address of 4+ characters the abbreviation is exactly 10 characters: its first 4, `..`, its last 4; a shorter address appears whole on both sides of `..` |
| `App.RowAddress` | App.tsx:319-321 | a non-vanity row shows at most 10 characters: the full address when it has ≤ 10, else the abbreviation. A vanity row shows the display address when present, else the abbreviation |
| `App.CreateOrdinaryWallet` | App.tsx:57-69 | the list grows by one and its tail is the old list. The new head has the fresh id, balance `0.000` and source Debot, and is neither vanity nor custodied, with no labels. It is selected and active, the menu closes, and nothing else changes |
| `App.ComposeVanity` | App.tsx:78-90 | with a non-empty prefix or suffix, the address is the prefix, then the random middle, then the suffix (each side defaulting to `1234`), and the display is exactly prefix `..` suffix. Otherwise the address is the text (default `666x..666`), displayed as is when it contains `..` and abbreviated when not |
| `App.StartVanity` | App.tsx:72-74 | the first transition closes the modal and the menu and sets the status to generating, leaving wallets and selection alone |
| `App.CompleteVanity` | App.tsx:77-104 | the vanity wallet (vanity, custodied, balance `0.000`, composed address and display) is prepended, selected and active, and the status becomes success |
| `App.ClearStatus` | App.tsx:106-108 | the last transition clears the status and changes nothing else |
| `App.ApplyVanityTrace` | App.tsx:71-110 | an uninterrupted request passes through generating, success and no status, and ends with the vanity wallet heading the list and active |
| `App.VanityRowShowsDisplay` | App.tsx:319-320 | the row of a created vanity wallet shows exactly its composed display address |
| `App.RecommendedWalletShowsPoolAddress` | App.tsx:86-90 | confirming a recommendation yields a wallet whose address and row text are that recommendation unchanged |
| `App.CustomWalletShowsAffixes` | App.tsx:81-85 | confirming the custom style with a prefix gives an address starting with the prefix and ending with the suffix (or `1234`); the row shows prefix `..` suffix |
| `App.EmptyCustomUsesPoolDefault` | App.tsx:81-88 | confirming the custom style with both inputs empty yields the pool default `666x..666` as address and display |
| `App.CustodyBanner` | App.tsx:409 | the banner cannot be evaluated iff there are no wallets; otherwise it shows iff the active wallet is custodied and not vanity |
| `App.AppStep` | App.tsx:176-282 | selecting a wallet sets only the selection, and makes a wallet with that id active when one exists; the menu toggles or closes, and opening the modal from the menu also closes the menu; the list changes only when a wallet is created or a vanity request completes, and then grows by exactly one at the front, with the new wallet selected; creating, starting, completing and clearing a vanity request each give exactly the state `CreateOrdinaryWallet`, `StartVanity`, `CompleteVanity` and `ClearStatus` describe |
| `App.AppStepKeepsTail` | App.tsx:57-110 | after any single action the old wallet list is the tail of the new one |
| `App.AppRunKeepsWallets` | App.tsx:57-110 | no wallet is ever removed: after any run of actions the starting list is the tail of the list |
| `App.AppRunKeepsInv` | App.tsx:57-110 | any run of selections, wallet creations and vanity transitions keeps these true: the list is non-empty, every custodied wallet is a vanity wallet, and every vanity wallet has a display address |
| `App.CustodyBannerNeverShown` | App.tsx:409 | from the initial dashboard, after any run of actions, the custody banner is evaluable and not shown |

## Left out

- JSX layout, CSS, icons, the SVG avatar and static labels: presentation only.
- The document `mousedown` listener's containment test: a click outside the menu is the `CloseGenerateMenu` action, without modelling the DOM. The balance visibility toggle is presentation only.
- Astral-plane characters: a JavaScript string counts them as two UTF-16 code units and the model as one character. Every string the dashboard builds is ASCII, so lengths agree there; typed search text outside the Basic Multilingual Plane is not modelled at the code-unit level.
- `setTimeout` delays: only the order of the three vanity-request transitions is modelled. Each is a separate action, so interleavings with other actions are covered by `App.AppRunKeepsInv`. Overlapping vanity requests sharing one status flag are not analysed beyond that invariant.
- `Math.random` and `Date.now`: replaced by parameters (pattern choice, random middle string, fresh ids, new address). Fresh ids are not claimed unique, because the code does not guarantee it.
- React effect scheduling and re-render semantics: the effect is the explicit `OpenEffect` action, which installs what the effect installs.
- Browser-enforced `maxLength` on the prefix and suffix inputs: a DOM behaviour, not code.
- Modal.Sanitize: requires ASCII input, because `toUpperCase` on non-ASCII text (for example `ß` to `SS`) is not modelled.
- Modal.Filtered: upper-cases only ASCII letters; non-ASCII case mappings of the search text are not modelled.
- `MOCK_ASSETS` and the `Asset` type: display strings with no logic.
- `UserStatus.unlockedVanityLevel`: declared but never read by the modelled code.
- JavaScript numbers: volumes, digits, steps and budgets are unbounded integers; `NaN` and fractions are not modelled.
- The avatar's `address[0]` for created wallets: the random address is a parameter and is not constrained to be non-empty.

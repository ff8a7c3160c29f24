# Chimeo landing site and admin console, modelled in Dafny

This project models the two browser scripts of the Chimeo marketing site that hold decision logic.

- **Admin request console** (`admin-script.js`). It keeps an in-memory cache of organization requests, `allRequests`. It derives the dashboard counts and the status filter from that cache. Its approve and reject actions write to the document store and then patch the cached entry in place. The model is the module `AdminConsole`:
  - a `Console` class holding the cache (`seq<Request>`), the current filter and the request id stored on the details modal's buttons;
  - a `Store` class standing for the two Firestore collections, `organizationRequests` and `users`, whose writes may fail;
  - pure functions for the counts (`StatsOf`), the filter (`Filtered`), the id lookup (`ResolveId`, `FindIndex`), the written records (`Patched`, `TrialUser`, `MarkApproved`, `MarkRejected`) and the two label tables.
- **Landing page** (`script.js`). The model is the module `LandingPage`. It covers the required-field check `validateForm`, the monthly/annual price switch, and the choice of redirect target for a pricing button. The form fields and price elements are arrays updated in place, as the script updates the DOM elements. The redirect is a pure function returning the target URL.

The module `JsValues` holds what both need: `Option` for `null`/`undefined`, `Show` for how a template literal renders `null`, and `Contains` for `String.prototype.includes`.

Behaviour the model keeps exactly as the code has it:

- Approve checks no status. Any cached entry can be approved again, including a rejected one. Only the per-row buttons are limited to pending requests (admin-script.js:125).
- The cache is patched only after every awaited write succeeded. If the user write fails after the request write, the store keeps the approved request without the new user record, and the cache is unchanged.
- Approve does not update the cached trial dates. An entry keeps whatever `trialStartDate` and `trialEndDate` it was loaded with, and only the stored document gets the new ones.
- Rejecting with a cancelled prompt (`null`) still rejects, with the reason "No reason provided".
- A missing `data-plan` is looked up as the key "null" and renders as `plan=null`.
- Every write is a plain update or overwrite. Approve and reject check no status, so nothing resembling a compare-and-swap happens. `setDoc` replaces the whole user document, so approving again resets `createdAt`.

All timestamps (`serverTimestamp()`, `Date.now()`, `new Date()`) are one integer `now` in milliseconds, passed to each action.

## Model

| member | source | states |
|---|---|---|
| `AdminConsole.Where` | admin-script.js:57-60 | `allRequests.filter(...)` for a status or tier test; the result is never longer than the cache |
| `AdminConsole.WhereMembers` | admin-script.js:72 | the filter keeps exactly the cached entries that pass the test |
| `AdminConsole.WhereAppend` | admin-script.js:72 | filtering distributes over concatenation, so the cache order is kept |
| `AdminConsole.WhereMultiset` | admin-script.js:72 | each passing entry is kept as many times as it occurs; every other entry is dropped |
| `AdminConsole.WhereUpdateCount` | admin-script.js:56-60 | replacing one cached entry changes a count only by what the old and the new entry contribute |
| `AdminConsole.StatsOf` | admin-script.js:56-60 | the pending, approved and rejected counts together never exceed the cache size |
| `AdminConsole.StatusCountsBounded` | admin-script.js:57-59 | no entry is counted under two statuses |
| `AdminConsole.Filtered` | admin-script.js:68-76 | `'all'` gives the whole cache; any other value gives exactly the entries with that status, as the order-preserving `Where` filter |
| `AdminConsole.ResolveId` | admin-script.js:270-271 | a non-empty argument is used as is; a missing or empty one falls back to the modal's stored id; an event object is kept |
| `AdminConsole.FindIndex` | admin-script.js:274-275 | the first cached entry whose id is strictly equal to `id`, or -1 when there is none |
| `AdminConsole.ClickEventFindsNothing` | admin-script.js:24-25 | an event passed as `requestId` passes `if (!id)` but matches no cached entry |
| `AdminConsole.OmittedFindsShownRequest` | admin-script.js:264-275 | with no argument, the handler finds the request the modal shows |
| `AdminConsole.ReasonOrDefault` | admin-script.js:345 | the reason is kept when non-empty; `null` and `''` become "No reason provided"; never empty |
| `AdminConsole.Truthy` | admin-script.js:272 | `if (!id) return` stops exactly at `undefined` and the empty string; a non-empty id and an event object pass (also line 331) |
| `AdminConsole.Matches` | admin-script.js:274 | `req.id === id` holds exactly when `id` is the string equal to the entry's id; an event or `undefined` never matches |
| `AdminConsole.Patched` | admin-script.js:280-346 | the stored document after the approval patch (lines 280-287: status, tier, approval time and approver, both trial dates) or the rejection patch (lines 341-346: status, rejection time, rejecter, reason), each field taking its new value; the id, organization and contact survive the merge, and so do the other action's fields (an approval keeps the rejection fields; a rejection keeps the tier, approval time and trial dates) |
| `AdminConsole.TrialUser` | admin-script.js:290-300 | the user document sits under the contact email, and its trial lasts exactly 30 days from its creation time |
| `AdminConsole.MarkApproved` | admin-script.js:306-312 | the cached entry becomes approved on `premium_trial` at `now` by `admin`; its id, organization, contact, trial dates and rejection fields are left as they were |
| `AdminConsole.MarkRejected` | admin-script.js:349-355 | the cached entry becomes rejected at `now` by `admin` with the given reason, or "No reason provided" when it is `null` or empty; its tier, approval fields and trial dates are left as they were |
| `AdminConsole.ApprovalTrialEnd` | admin-script.js:280-303 | both writes end the trial at `now + 2592000000`; the user record takes the contact email, org name and type, `premium_trial` and `trial` |
| `AdminConsole.CachedApprovalKeepsTrialDates` | admin-script.js:306-312 | the cached entry equals the stored document except for the two trial dates; the cache keeps its old dates and only the store gets the new ones |
| `AdminConsole.CachedRejectionMatchesStore` | admin-script.js:341-355 | the cached entry after reject equals the stored document, and the tier is unchanged |
| `AdminConsole.ApproveIgnoresStatus` | admin-script.js:270-312 | approving gives `approved` and `premium_trial` whatever the status was; approving twice equals approving once |
| `AdminConsole.ApprovePendingStats` | admin-script.js:306-317 | approving a pending non-trial entry: pending −1, approved +1, trial +1, rejected unchanged |
| `AdminConsole.ReapproveStats` | admin-script.js:306-317 | approving an entry already approved on a trial leaves the counts unchanged |
| `AdminConsole.RejectPendingStats` | admin-script.js:349-360 | rejecting a pending entry: pending −1, rejected +1, approved and trial unchanged |
| `AdminConsole.Store.UpdateRequest` | admin-script.js:279-287 | on success, the patch is merged into that one existing document; on failure, nothing changes |
| `AdminConsole.Store.SetUser` | admin-script.js:302-303 | on success, the user document under the email is replaced; on failure, nothing changes |
| `AdminConsole.Console.constructor` | admin-script.js:2-3 | the cache starts empty and the filter starts as `'all'` |
| `AdminConsole.Console.Reload` | admin-script.js:28-54 | a successful query replaces the cache with its documents in order; a missing database or a thrown error leaves it alone |
| `AdminConsole.Console.SelectFilter` | admin-script.js:12-15 | the filter becomes the selected value and the shown list is the filtered cache |
| `AdminConsole.Console.ShowDetails` | admin-script.js:160-162 | the modal buttons remember an id only when it is in the cache |
| `AdminConsole.Console.Approve` | admin-script.js:270-327 | no id or an uncached id returns with no write; a failed request write changes nothing; a failed user write leaves the request patched in the store and the cache unchanged; success changes only the matched entry and writes both documents |
| `AdminConsole.Console.Reject` | admin-script.js:329-370 | the same early returns; no user record is ever written; a failed write changes nothing; success changes only the matched entry, with the defaulted reason |
| `AdminConsole.Console.ClickModalApprove` | admin-script.js:24 | the modal's approve button, as registered, approves nothing and writes nothing |
| `AdminConsole.Console.ClickModalApproveIntended` | admin-script.js:24 | with the argument left out, approving from the modal reaches the writes; on success the shown request is approved in the cache, patched in the store, and its trial user is written |
| `AdminConsole.Console.ClickModalReject` | admin-script.js:25 | the modal's reject button, as registered, rejects nothing and writes nothing |
| `AdminConsole.Console.ClickModalRejectIntended` | admin-script.js:25 | with the argument left out, rejecting from the modal reaches the write; on success the shown request is rejected in the cache and patched in the store, and no user is written |
| `AdminConsole.Label` | admin-script.js:387 | `table[key] \|\| key`: a listed key with a non-empty label gives its label; an unlisted key, or one with an empty label, is returned as is |
| `AdminConsole.FormatOrgType` | admin-script.js:376-388 | each of the seven org types maps to its label; anything else, such as a custom type, is returned unchanged |
| `AdminConsole.FormatUseCase` | admin-script.js:390-399 | each of the five use cases maps to its label; anything else is returned unchanged |
| `AdminConsole.FormatIdempotent` | admin-script.js:376-399 | no label is itself a key, so formatting twice is formatting once; "Veterans Hall" passes through |
| `LandingPage.TrimStart` | script.js:138 | the leading white space dropped; never longer than the value (fully characterised by `TrimStartSpec`) |
| `LandingPage.TrimEnd` | script.js:138 | the trailing white space dropped; never longer than the value (fully characterised by `TrimEndSpec`) |
| `LandingPage.Trim` | script.js:138 | `value.trim()`: never longer than the value, and neither end of the result is white space |
| `LandingPage.Marked` | script.js:138-143 | the field keeps its value; its border becomes `#ef4444` exactly when the value is blank, and `#d1d5db` otherwise |
| `LandingPage.Switched` | script.js:41-47 | the amount's attributes are kept; its text becomes the annual attribute when checked and the monthly one otherwise, with `null` giving empty text |
| `LandingPage.IsLiveLink` | script.js:353 | a live link is never empty; a non-empty link shorter than the 21-character markers is always live |
| `LandingPage.CheckoutUrl` | script.js:357 | the fallback URL is exactly `checkout.html?plan=` and the plan as rendered, followed by `&price=` and the price as rendered, with `null` shown as "null" (also line 361) |
| `JsValues.Contains` | script.js:353 | `includes`: a contained string is never longer than its container, and the empty string is contained everywhere |
| `JsValues.Show` | script.js:357 | a template literal renders a present attribute as itself and a missing one (`null`) as "null" |
| `LandingPage.TrimStartSpec` | script.js:138 | trimming the front keeps a suffix starting with a non-space and drops only white space |
| `LandingPage.TrimEndSpec` | script.js:138 | trimming the end keeps a prefix ending with a non-space and drops only white space |
| `LandingPage.TrimStartOfSpaces` | script.js:138 | a value made only of white space trims to nothing |
| `LandingPage.TrimEmptyIffBlank` | script.js:138 | `value.trim()` is empty exactly when the value is all white space |
| `LandingPage.ValidateForm` | script.js:133-147 | true exactly when no required field is blank; every field is marked, not only those before the first blank one |
| `LandingPage.MarkedStable` | script.js:138-143 | a field is red exactly when its value is all white space; validating again changes nothing |
| `LandingPage.ToggleBilling` | script.js:36-49 | every amount shows `data-annual` when checked and `data-monthly` otherwise; the attributes are kept |
| `LandingPage.SwitchedLastWins` | script.js:36-49 | only the last toggle position matters; switching to annual and back shows the monthly price again |
| `LandingPage.BillingType` | script.js:344-349 | annual exactly when the toggle element exists and is checked |
| `LandingPage.PaidTarget` | script.js:348-362 | the plan's link when the plan is in the table and the link is live; otherwise `checkout.html?plan=<plan>&price=<price>` |
| `LandingPage.ButtonTarget` | script.js:306-322 | plan `'free'` goes to the sign-up URL; any other plan goes through paid-subscription handling |
| `LandingPage.ProMonthlyIsLive` | script.js:334 | the Pro monthly link contains none of the four placeholder markers |
| `LandingPage.PlaceholderLinksAreNotLive` | script.js:335-339 | the other three configured links each contain a placeholder marker |
| `LandingPage.ConfiguredTargets` | script.js:306-362 | with the configured table, only Pro billed monthly reaches Stripe; free goes to sign-up; everything else goes to `checkout.html` |
| `LandingPage.ProTargets` | script.js:332-358 | Pro: the Stripe link when billed monthly, the checkout page when annual |
| `LandingPage.PremiumTargets` | script.js:337-358 | Premium: the checkout page for both billing types |
| `LandingPage.UnlistedTargets` | script.js:359-361 | a plan missing from the table, `null` included, goes to the checkout page |

The placeholder check is proved with one observation. Every placeholder marker contains the digit `2`, and the Pro monthly link has no `2` anywhere (`JsValues.NotContainsByChar`).

## Findings

| source | as written | input that shows it | evidently intended | confidence | as-written member | corrected member |
|---|---|---|---|---|---|---|
| admin-script.js:24 | `addEventListener('click', approveRequest)` passes the click event as `requestId`. The event is truthy, so the fallback to the modal's stored id at line 271 is skipped. No cached id equals the event, so the handler returns at line 275. | Open "View Details" on any request and click the modal's Approve button. | `addEventListener('click', () => approveRequest())`, so that the id stored at line 264 is used. | high; not executed | `AdminConsole.Console.ClickModalApprove` | `AdminConsole.Console.ClickModalApproveIntended` |
| admin-script.js:25 | The same for `rejectRequest`: the event is the id, the lookup at line 333 fails, and the handler returns before the prompt. | Open "View Details" on any request and click the modal's Reject button. | `addEventListener('click', () => rejectRequest())`, using the id stored at line 265. | high; not executed | `AdminConsole.Console.ClickModalReject` | `AdminConsole.Console.ClickModalRejectIntended` |

## Left out

- Rendering is not modelled: the request list and details HTML (`renderRequests`, `showRequestDetails`), `closeModal`, the success and error toasts and their timers, and `formatDate`, which uses `Date` objects and locale formatting.
- The Firestore calls are reduced to `Store`. Each write succeeds or fails by a nondeterministic choice, and `updateDoc` on a missing document always fails. The query is not modelled. `Reload` receives its result: no database, a thrown error, or the documents already ordered by `submittedAt`.
- The script calls `serverTimestamp()` and `Date.now()` several times. The model uses one `now` for all of them, so both trial ends are exactly equal.
- Fields that are only displayed (size, address, phone, office email, use case, expected usage, additional info, `submittedAt`) are not part of `Request`. The actions never change them.
- The spread `{id: doc.id, ...doc.data()}` lets a stored field named `id` override the document id. The model takes each document's id as given.
- Interleaving is not modelled. Each action runs without interruption, so two actions in flight at once, and the cache changing between `find` and `findIndex`, are not covered.
- The "sending email" log lines are not modelled.
- Object lookups that reach inherited properties are not modelled: `formatOrgType('constructor')` returns a function. `stripePaymentLinks['constructor']` leads to the checkout fallback, which is also what the model gives.
- In script.js, these are not modelled: navigation, scrolling, animation, hover and focus effects, the FAQ accordion, `addLoadingState`, lazy image loading, and the button's loading state in `handlePaidSubscription`. The `window.location` assignment is the returned target string.
- `LandingPage.ValidateForm`: the DOM query for `input[required], textarea[required]` is not modelled. The array passed in is that list.
- stripe-backend-example.js is not part of this model. It is an Express server whose work is calls into the Stripe SDK.
- Submitting organization requests, trial expiration and notification sending do not appear in these two scripts and are not modelled.

# PriceBuddy in Dafny

A model of the core of PriceBuddy, a price-comparison dashboard for medical supplies.
It tracks products, suppliers and a price matrix (product id → supplier id → price or
`null`). It shows per product the lowest and highest price among the active suppliers,
the best supplier and the savings percentage; it re-scrapes prices with a random
variation floored at $0.99; and it sits behind a Supabase account layer with the tiers
free, pro and enterprise.

Modules, one per part of the program:

- `PriceComparison` — the comparison engine of the dashboard component: active
  suppliers, the offers of a row, minimum/maximum/best supplier, the savings
  percentage, the cell tags, the statistics (`CalculateStats`, a loop proved against
  `StatsOf`), the scrape update and the column removal.
- `PriceTracker` — the catalogue the dashboard keeps in React state, as a class
  `Tracker` whose methods add/remove products and suppliers, scrape and compute the
  statistics, with the invariant that ids are unique, every supplier key names a known
  supplier and every price is at least $0.99. It also holds the initial data and the
  JavaScript `Math.max(...ids) + 1` id computation as written.
- `PriceTable` — the second page (app/page.tsx), whose rows use the same expressions as
  the dashboard but tell apart `undefined` and `null` entries and compare with `===`. Its
  `handleScrape` (app/page.tsx:63-79) is the same update as the dashboard's and is
  covered by `ScrapeMatrix`.
- `TextUtils` — `capitalize`, `slugify`, `validateEmail`, `validatePassword`,
  `formatRelativeTime`.
- `Accounts` — tiers, subscription limits, users, profiles and the auth state record.
- `AuthContext` — `checkFeatureAccess`, `getRemainingLimits`, and the provider's state
  transitions (`loadUserProfile`, the auth-event listener, `signOut`, `updateProfile`)
  as a class `AuthProvider`.
- `AuthGuard` — what `AuthGuard` renders and when it redirects, the tier wrappers and
  `FeatureGate`.
- `SubscriptionCard` — usage percentages, limit warnings, the upgrade button and
  dialog, feature labels.
- `UserProfile` — initials, badge colour and label, profile form validation.
- `SignUpForm` — the sign-up form's validation schema.

Backend calls (Supabase fetch, insert, update, sign-out) are replaced by their replies,
given as inputs. `Math.random()` is replaced by a variation function
`variation(productId, supplierId)`, and the clock by the two millisecond timestamps.
The validation library's email check is a parameter `isEmail`. Prices are exact reals.

## Model

| member | source | states |
|---|---|---|
| PriceComparison.ActiveSuppliers | components/price-comparison-app.tsx:265 | a supplier is kept exactly when it is in the list and its status is active |
| PriceComparison.ActiveSuppliersConcat | app/page.tsx:53 | filtering distributes over concatenation, so list order is kept |
| PriceComparison.AvailableOffers | components/price-comparison-app.tsx:633-637 | every offer is an active supplier's own price, and every active supplier with a price gives an offer |
| PriceComparison.MinOf | components/price-comparison-app.tsx:638 | `Math.min` of a non-empty list is an element and no element is smaller |
| PriceComparison.MaxOf | components/price-comparison-app.tsx:639 | `Math.max` of a non-empty list is an element and no element is larger |
| PriceComparison.LowestPrice | components/price-comparison-app.tsx:638 | `null` exactly when there are no offers; otherwise a lower bound that some offer reaches |
| PriceComparison.HighestPrice | components/price-comparison-app.tsx:639 | `null` exactly when there are no offers; otherwise an upper bound that some offer reaches |
| PriceComparison.FirstAtPrice | components/price-comparison-app.tsx:640 | `find` returns an offer at the given price, or none when no offer has that price |
| PriceComparison.RowSavings | components/price-comparison-app.tsx:641 | a missing or zero minimum or maximum gives 0 savings |
| PriceComparison.SavingsPercent | components/price-comparison-app.tsx:641 | `(max - min) / max * 100`: for positive prices with min at most max it lies in [0, 100) and is 0 exactly when they are equal |
| PriceComparison.CellTag | components/price-comparison-app.tsx:651-659 | a cell is "unavailable" exactly when it has no price |
| PriceComparison.CompareRow | components/price-comparison-app.tsx:633-659 | the row has one cell per active supplier in list order, with that supplier's entry; min, max and best are absent exactly when there are no offers |
| PriceComparison.RowBounds | components/price-comparison-app.tsx:633-641 | min/max are absent exactly when no active supplier has a price; otherwise every active price lies between them and both are reached; the best supplier is active and offers the minimum |
| PriceComparison.BestIsFirstAtMin | components/price-comparison-app.tsx:640 | ties go to the first active supplier in list order with the minimum price |
| PriceComparison.FirstAtPriceScan | components/price-comparison-app.tsx:640 | the offer `find` returns belongs to a supplier with no earlier active supplier at that price |
| PriceComparison.CellTagMeaning | components/price-comparison-app.tsx:232-250 | green exactly at the minimum; red only at the maximum of a real spread; the middle strictly between; equal prices never red |
| PriceComparison.CellTagsOrdered | components/price-comparison-app.tsx:651-659 | the same, stated for every cell of a computed row |
| PriceComparison.SavingsBounds | components/price-comparison-app.tsx:641 | for positive prices savings lie in [0, 100) and are 0 exactly when min equals max |
| PriceComparison.RowSavingsRange | components/price-comparison-app.tsx:641 | at most one offer gives 0 savings; with positive prices a row's savings are in [0, 100) and 0 exactly without a spread |
| PriceComparison.NoSpreadNoSavings | components/price-comparison-app.tsx:641 | equal min and max give 0 savings |
| PriceComparison.Tenths | components/price-comparison-app.tsx:641 | `toFixed(1)` as a count of tenths: within half a tenth of the value |
| PriceComparison.NonActiveSupplierIgnored | components/price-comparison-app.tsx:265 | adding a non-active supplier anywhere in the list leaves every row unchanged |
| PriceComparison.NonActivePricesIgnored | components/price-comparison-app.tsx:633-641 | a row depends only on the active suppliers' prices |
| PriceComparison.OffersDependOnlyOnActive | components/price-comparison-app.tsx:634-637 | the offers depend only on the listed suppliers' entries |
| PriceComparison.ActivePricesPositive | components/price-comparison-app.tsx:377-380 | with positive prices every counted price is positive |
| PriceComparison.CalculateStats | components/price-comparison-app.tsx:367-392 | the loop returns `StatsOf`: the product count, the active supplier count, and the average savings over products with more than one active price |
| PriceComparison.StatsOf | components/price-comparison-app.tsx:367-392 | the statistics as a function of the state: product count, active supplier count, total savings over the qualifying products divided by their number, 0 when none; bounded by `AverageSavingsInRange` |
| PriceComparison.StatsStep | components/price-comparison-app.tsx:375-387 | one loop iteration adds the product's contribution and counts it exactly when it has two or more prices |
| PriceComparison.ContributionIsRowSavings | components/price-comparison-app.tsx:381-386 | a counted product contributes exactly the savings its table row shows |
| PriceComparison.ContributionBounds | components/price-comparison-app.tsx:381-386 | a contribution is in [0, 100) and 0 for products with at most one price |
| PriceComparison.SavingsSumBounds | components/price-comparison-app.tsx:375-387 | the total is non-negative and below 100 times the number of counted products |
| PriceComparison.AverageSavingsInRange | components/price-comparison-app.tsx:389 | the average is in [0, 100), and 0 when no product qualifies |
| PriceComparison.ExcludedProductIgnored | components/price-comparison-app.tsx:380-387 | a product with at most one price changes the tracked count but not the average |
| PriceComparison.FloorImpliesPositive | components/price-comparison-app.tsx:291 | prices at or above the floor are positive |
| PriceComparison.Varied | components/price-comparison-app.tsx:288-292 | `null` stays `null`; a price becomes price plus variation, floored at 0.99, so it moves by less than $2 unless floored |
| PriceComparison.PickKey | components/price-comparison-app.tsx:286-287 | the key chosen for the next iteration is one of the remaining keys |
| PriceComparison.ScrapeRow | components/price-comparison-app.tsx:287-293 | the same supplier keys, each entry varied |
| PriceComparison.ScrapeMatrix | components/price-comparison-app.tsx:285-294 | the same product and supplier keys, every entry varied by its own variation |
| PriceComparison.ScrapeKeepsFloorAndNulls | components/price-comparison-app.tsx:288-292 | after a scrape every price is at least 0.99 and exactly the null entries are null |
| PriceComparison.DropSupplierColumn | components/price-comparison-app.tsx:355-359 | every product row loses the supplier's key and nothing else |
| PriceTracker.ProductIds | components/price-comparison-app.tsx:323 | the ids of the products, in order |
| PriceTracker.SupplierIds | components/price-comparison-app.tsx:345 | the ids of the suppliers, in order |
| PriceTracker.MaxId | components/price-comparison-app.tsx:323 | the maximum of a non-empty id list is in it and bounds it |
| PriceTracker.NextId | components/price-comparison-app.tsx:323 | the corrected new id: above every existing id, one more than the largest, and 1 for an empty list |
| PriceTracker.JsMax | components/price-comparison-app.tsx:323 | `Math.max` over numbers is `-Infinity` exactly when all (or none) are `-Infinity`, else the largest finite one |
| PriceTracker.AsJsNumbers | components/price-comparison-app.tsx:323 | ids as finite JavaScript numbers |
| PriceTracker.NextIdAsWrittenAgrees | components/price-comparison-app.tsx:323 | on a non-empty catalogue the code's id is the corrected one |
| PriceTracker.EmptyCatalogRepeatsId | components/price-comparison-app.tsx:323 | on an empty catalogue the code's id is `-Infinity`, and the next add gives the same id again |
| PriceTracker.NextIdAsWritten | components/price-comparison-app.tsx:323 | `Math.max(...ids) + 1` over JavaScript numbers; `NextIdAsWrittenAgrees` and `EmptyCatalogRepeatsId` state where it agrees with `NextId` and where it fails |
| PriceTracker.ScrapedMatrix | components/price-comparison-app.tsx:285-294 | the matrix the scrape timer computes from a snapshot, for the race of `ScrapeRaceBreaksInvariant` |
| PriceTracker.ScrapeRaceBreaksInvariant | components/price-comparison-app.tsx:280-303 | committing the scrape of the click-time snapshot after a product was removed, or added, leaves a matrix without one row per product, although each step alone keeps the invariant |
| PriceTracker.WithoutProduct | components/price-comparison-app.tsx:336 | exactly the products with another id remain |
| PriceTracker.WithoutSupplier | components/price-comparison-app.tsx:360 | exactly the suppliers with another id remain |
| PriceTracker.WithoutProductKeepsUnique | components/price-comparison-app.tsx:336 | removal keeps product ids unique |
| PriceTracker.WithoutSupplierKeepsUnique | components/price-comparison-app.tsx:360 | removal keeps supplier ids unique |
| PriceTracker.AppendFreshProduct | components/price-comparison-app.tsx:324-328 | appending a product with a fresh id keeps ids unique |
| PriceTracker.AppendFreshSupplier | components/price-comparison-app.tsx:346-349 | appending a supplier with a fresh id keeps ids unique |
| PriceTracker.EmptyRowEntries | components/price-comparison-app.tsx:327 | the new empty row reads as no price everywhere and leaves other rows alone |
| PriceTracker.RemovedRowEntries | components/price-comparison-app.tsx:334-335 | deleting a row reads as no price for that product only |
| PriceTracker.DroppedColumnEntries | components/price-comparison-app.tsx:355-359 | dropping a column reads as no price for that supplier only |
| PriceTracker.AddProductKeepsInvariant | components/price-comparison-app.tsx:322-330 | adding a product with a fresh id keeps the catalogue invariant |
| PriceTracker.RemoveProductKeepsInvariant | components/price-comparison-app.tsx:332-342 | removing a product keeps the catalogue invariant |
| PriceTracker.AddSupplierKeepsInvariant | components/price-comparison-app.tsx:344-351 | adding a supplier with a fresh id keeps the catalogue invariant |
| PriceTracker.RemoveSupplierKeepsInvariant | components/price-comparison-app.tsx:353-365 | removing a supplier and its column keeps the catalogue invariant |
| PriceTracker.NextIdAboveProducts | components/price-comparison-app.tsx:323 | the new product id differs from every product's id |
| PriceTracker.NextIdAboveSuppliers | components/price-comparison-app.tsx:345 | the new supplier id differs from every supplier's id |
| PriceTracker.InitialIdSets | components/price-comparison-app.tsx:62-74 | the initial products have ids 1 to 5, the suppliers 1 to 4 |
| PriceTracker.InitialPricesAtLeastFloor | components/price-comparison-app.tsx:75-81 | every initial price is at least 0.99 |
| PriceTracker.InitialIdsUnique | components/price-comparison-app.tsx:62-74 | the initial ids are unique |
| PriceTracker.InitialRowsNameKnownSuppliers | components/price-comparison-app.tsx:75-81 | the initial rows only name suppliers 1 to 4 |
| PriceTracker.InitialDataConsistent | components/price-comparison-app.tsx:62-81 | the initial data satisfies the catalogue invariant |
| PriceTracker.Tracker.constructor | components/price-comparison-app.tsx:61-82 | the state starts as the initial data, with the invariant |
| PriceTracker.Tracker.AddProduct | components/price-comparison-app.tsx:322-330 | appends the product with a fresh id, adds an empty row, changes nothing else |
| PriceTracker.Tracker.RemoveProduct | components/price-comparison-app.tsx:332-342 | removes the product and its row, changes nothing else |
| PriceTracker.Tracker.AddSupplier | components/price-comparison-app.tsx:344-351 | appends the supplier with a fresh id and pending status, changes nothing else |
| PriceTracker.Tracker.RemoveSupplier | components/price-comparison-app.tsx:353-365 | removes the supplier and its column from every row |
| PriceTracker.Tracker.Scrape | components/price-comparison-app.tsx:280-303 | replaces every entry by its varied value, same keys, catalogue unchanged |
| PriceTracker.Tracker.CurrentStats | components/price-comparison-app.tsx:367-394 | returns `StatsOf` the current state, which needs no guard against zero prices because the invariant keeps prices positive |
| PriceTable.EntryIn | app/page.tsx:251 | an entry is `undefined` exactly when the key is missing, `null` exactly when it is stored as null, else the price |
| PriceTable.ChoosePriceClass | app/page.tsx:251-266 | a printed price gets the dashboard's tag colour; a null entry is plain; an undefined entry gets the middle colour |
| PriceTable.PageRowAgreesWithDashboard | app/page.tsx:232-266 | a cell prints a price exactly when the dashboard's cell has one, with the same tag |
| PriceTable.SavingsHighlightedIff | app/page.tsx:283 | the badge is highlighted exactly when the savings are at least 0.05 % |
| PriceTable.SavingsHighlighted | app/page.tsx:283 | `parseFloat(savings) > 0` on the one-decimal figure; `SavingsHighlightedIff` gives its threshold |
| PriceTable.NoSpreadNotHighlighted | app/page.tsx:283 | a row with no spread is never highlighted |
| PriceTable.PageStats | app/page.tsx:141-165 | the average-savings card always reads "23%" |
| PriceTable.PageStatsAgree | app/page.tsx:141-153 | the page's two counts equal the dashboard statistics' counts |
| TextUtils.ToLowerChar | lib/utils.ts:44 | an upper-case ASCII letter becomes its own lower-case letter (code point + 32), other characters stay |
| TextUtils.ToUpperChar | lib/utils.ts:39 | a lower-case ASCII letter becomes its own upper-case letter (code point - 32), other characters stay |
| TextUtils.LowerAscii | lib/utils.ts:44 | each character is lower-cased in place |
| TextUtils.Capitalize | lib/utils.ts:38-40 | same length; the first character becomes its own upper-case form and every later character is kept |
| TextUtils.CapitalizeIdempotent | lib/utils.ts:38-40 | capitalizing twice is capitalizing once; "" stays "" |
| TextUtils.KeepSlugChars | lib/utils.ts:45 | exactly the lower-case letters, digits, spaces and dashes are kept |
| TextUtils.SkipRun | lib/utils.ts:46-47 | a run is a prefix of characters in the class, and what follows starts outside it |
| TextUtils.TrimEnd | lib/utils.ts:48 | removes exactly a trailing run of white space |
| TextUtils.Slugify | lib/utils.ts:42-49 | the five stages in order; a slug holds only lower-case letters, digits and dashes, with no two dashes in a row |
| TextUtils.SlugifyIdempotent | lib/utils.ts:42-49 | slugifying a slug gives it back |
| TextUtils.SlugifyLeadingSpace | lib/utils.ts:42-49 | a leading space becomes a leading dash: `trim` runs last, after `\s+` has already turned every space into a dash, so it finds nothing to remove |
| TextUtils.SlugifyTrailingSpace | lib/utils.ts:42-49 | a trailing space becomes a trailing dash, because the final `trim` finds no space left |
| TextUtils.ValidateEmailMeaning | lib/utils.ts:62-65 | the regular expression accepts exactly one `@` and no white space, non-empty local part, and a dot inside the domain with text on both sides |
| TextUtils.ValidateEmail | lib/utils.ts:62-65 | the pattern as a split at an `@` and a later `.` into three non-empty parts of `[^\s@]`; `ValidateEmailMeaning` states what it accepts |
| TextUtils.Tally | lib/utils.ts:75-103 | one check appends its message when it fails and adds a point when it passes |
| TextUtils.ValidatePassword | lib/utils.ts:67-112 | the errors are those of the failing checks in order, valid exactly when all five pass, strength from the score, errors plus score are five |
| TextUtils.PasswordErrors | lib/utils.ts:75-103 | the failing checks' messages in check order; `ErrorsNameFailedChecks` and `PasswordValidIff` state their meaning |
| TextUtils.StrengthOf | lib/utils.ts:105 | at most 2 weak, 3 fair, 4 good, otherwise strong; `PasswordValidIff` states that strong means all checks pass |
| TextUtils.ComplaintOrPoint | lib/utils.ts:75-103 | each check gives either a message or a point, never both |
| TextUtils.PasswordErrorsCount | lib/utils.ts:75-105 | error count plus score is five |
| TextUtils.PasswordValidIff | lib/utils.ts:105-111 | no errors exactly when all checks pass, which is exactly "strong" |
| TextUtils.MessagesDistinct | lib/utils.ts:76-102 | the five messages are pairwise different |
| TextUtils.ErrorsNameFailedChecks | lib/utils.ts:75-103 | a check's message is among the errors exactly when that check fails |
| TextUtils.DiffInSeconds | lib/utils.ts:28 | the floor of the millisecond difference divided by 1000 |
| TextUtils.FormatRelativeTime | lib/utils.ts:30-35 | "just now" below 60 s, minutes 1–59, hours 1–23, days 1–29 each the floor of the elapsed time, the date from 30 days on |
| TextUtils.RelativeTimeBuckets | lib/utils.ts:30-35 | each bucket is chosen exactly on its interval |
| Accounts.ParseTier | types/database.ts:18 | a string is a tier exactly when it is one of the three names |
| Accounts.ParseTierName | types/database.ts:18 | parsing a tier's name gives the tier back |
| Accounts.OrElse | contexts/AuthContext.tsx:102 | `a \|\| b` on an optional string: `a` when non-empty, else `b` |
| AuthContext.CheckFeatureAccess | contexts/AuthContext.tsx:238-243 | no profile, no access; else access exactly when the tier lists the feature |
| AuthContext.GetRemainingLimits | contexts/AuthContext.tsx:245-249 | the free limits without a profile, the tier's limits otherwise |
| AuthContext.FeatureAccessMatchesLimits | contexts/AuthContext.tsx:238-249 | access exactly when there is a profile and the reported limits list the feature |
| AuthContext.NewProfileFor | contexts/AuthContext.tsx:100-104 | the user's id, the metadata name or "", the free tier |
| AuthContext.NotFoundIsNoFailure | contexts/AuthContext.tsx:92 | a `PGRST116` error never counts as a failed fetch |
| AuthContext.AfterLoad | contexts/AuthContext.tsx:86-138 | user recorded, loading ended, session kept; a failed fetch or creation records its message and keeps the profile; otherwise the fetched or created row is the profile and the error is cleared |
| AuthContext.MissingProfileIsCreatedFree | contexts/AuthContext.tsx:99-120 | a not-found fetch leads to the created row as profile, free tier, error cleared |
| AuthContext.AuthProvider.constructor | contexts/AuthContext.tsx:23-29 | the state starts empty and loading |
| AuthContext.AuthProvider.LoadUserProfile | contexts/AuthContext.tsx:86-138 | the new state is `AfterLoad`, and a creation is requested exactly when the fetch found no row without failing |
| AuthContext.AuthProvider.HandleAuthEvent | contexts/AuthContext.tsx:40-56 | sign-in loads the profile; sign-out clears the state; a refresh sets session and user only; other events change nothing |
| AuthContext.AuthProvider.SignOut | contexts/AuthContext.tsx:185-204 | a failure records its message and keeps the rest; success clears the state |
| AuthContext.AuthProvider.UpdateProfile | contexts/AuthContext.tsx:214-236 | no user or profile: "No authenticated user" and no change; a failed update records its message; success stores the returned row |
| AuthGuard.TierLevel | components/auth/AuthGuard.tsx:113-117 | levels run from 1 to 3 |
| AuthGuard.TierDenied | components/auth/AuthGuard.tsx:120-122 | a tier is denied when its level is below the required one; `TierOrder` states the order this is |
| AuthGuard.TierOrder | components/auth/AuthGuard.tsx:113-122 | denial is a strict order: free below pro below enterprise |
| AuthGuard.GuardPrecedence | components/auth/AuthGuard.tsx:62-159 | loading first, then the error, then the missing user, then the tier check |
| AuthGuard.GuardViewOf | components/auth/AuthGuard.tsx:62-159 | the render chain of the guard; `GuardPrecedence`, `GuardChildrenIff` and `NoProfileSkipsTierGate` state its meaning |
| AuthGuard.GuardChildrenIff | components/auth/AuthGuard.tsx:62-159 | the children are shown exactly when nothing blocks them |
| AuthGuard.NoProfileSkipsTierGate | components/auth/AuthGuard.tsx:112 | without a profile the tier requirement has no effect |
| AuthGuard.RedirectOf | components/auth/AuthGuard.tsx:34-59 | a push to the fallback path exactly when nothing loads, a user is required and none is there |
| AuthGuard.RedirectMatchesView | components/auth/AuthGuard.tsx:34-109 | a redirect comes with the spinner or an error view, and goes to "/auth/login" by default |
| AuthGuard.TierWrappers | components/auth/AuthGuard.tsx:163-185 | `RequireProTier` admits pro and enterprise, `RequireEnterpriseTier` only enterprise; both keep sign-in required by default |
| AuthGuard.FeatureGateMeaning | components/auth/AuthGuard.tsx:195-233 | children exactly with access; nothing exactly without a profile or with the alert switched off and no fallback; the alert otherwise |
| AuthGuard.FeatureGateOf | components/auth/AuthGuard.tsx:195-233 | the render chain of the gate; `FeatureGateMeaning` states when each outcome is shown |
| SubscriptionCard.UsagePercentage | components/auth/SubscriptionCard.tsx:79-82 | 0 for unlimited; in [0, 100] and proportional to use for a positive limit; `NaN` or 100 for a zero limit |
| SubscriptionCard.ApproachingLimitMeaning | components/auth/SubscriptionCard.tsx:138 | the warning shows exactly above four fifths of a positive limit, never when unlimited |
| SubscriptionCard.ApproachingLimit | components/auth/SubscriptionCard.tsx:138 | usage above 80 and a finite limit; `ApproachingLimitMeaning` states it without percentages |
| SubscriptionCard.ShownLimit | components/auth/SubscriptionCard.tsx:134 | `∞` exactly for -1, the number otherwise |
| SubscriptionCard.WithoutFree | components/auth/SubscriptionCard.tsx:192 | exactly the non-free tiers remain |
| SubscriptionCard.UpgradeDialog | components/auth/SubscriptionCard.tsx:188-256 | pro then enterprise; the current plan's button disabled and labelled "Current Plan", the others "Upgrade to …" |
| SubscriptionCard.UpgradeOptions | components/auth/SubscriptionCard.tsx:192-256 | the dialog's plans without free, each with its button; `UpgradeDialog` states the order, captions and disabled states |
| SubscriptionCard.ReplaceFirst | components/auth/SubscriptionCard.tsx:168 | replacing keeps the length |
| SubscriptionCard.FirstIndexOf | components/auth/SubscriptionCard.tsx:168 | the first index of the character, or the length |
| SubscriptionCard.ReplaceFirstAt | components/auth/SubscriptionCard.tsx:168 | only the first occurrence changes |
| SubscriptionCard.FeatureLabelMeaning | components/auth/SubscriptionCard.tsx:166-170 | the first `_` becomes a space, later ones stay |
| SubscriptionCard.FeatureLabel | components/auth/SubscriptionCard.tsx:169 | `feature.replace('_', ' ')`; `FeatureLabelMeaning` states which character changes |
| SubscriptionCard.CardFeatures | components/auth/SubscriptionCard.tsx:166-170 | one label per feature, in order, each the feature's `FeatureLabel` |
| SubscriptionCard.DialogFeatures | components/auth/SubscriptionCard.tsx:236-246 | at most three labels, a prefix of the card's, then "+n more" for exactly the rest |
| SubscriptionCard.CardUsesTierLimits | components/auth/SubscriptionCard.tsx:63-170 | nothing without a profile; the plan title; the button exactly for free; the usage panel exactly unless `showUsage` is false, with warnings only for finite limits of the profile's tier and every feature of that tier |
| SubscriptionCard.CardOf | components/auth/SubscriptionCard.tsx:63-170 | the card as rendered: `null` without a profile, the title and Upgrade button, and the usage panel behind `showUsage` (default true); its meaning is stated in `CardUsesTierLimits` |
| UserProfile.SplitOnSpace | components/auth/UserProfile.tsx:123 | at least one piece, none holding a space |
| UserProfile.JoinSplit | components/auth/UserProfile.tsx:123 | joining the pieces with spaces gives the string back |
| UserProfile.WordStarts | components/auth/UserProfile.tsx:121-128 | word starts are characters of the string and never spaces |
| UserProfile.HeadsOfSplit | components/auth/UserProfile.tsx:123-124 | the pieces' first characters are exactly the word starts |
| UserProfile.UpperAscii | components/auth/UserProfile.tsx:126 | each character upper-cased in place |
| UserProfile.GetInitials | components/auth/UserProfile.tsx:121-128 | at most two characters: the upper-cased starts of the first two words, against the independent `WordStarts` |
| UserProfile.InitialsHaveNoSpace | components/auth/UserProfile.tsx:121-128 | no initial is a space |
| UserProfile.InitialsExample | components/auth/UserProfile.tsx:121-128 | "a  b c" gives "AB" |
| UserProfile.InitialsOfSpaces | components/auth/UserProfile.tsx:121-128 | any name made only of spaces, or empty, gives "" |
| UserProfile.GetTierColor | components/auth/UserProfile.tsx:130-137 | blue exactly for "pro", purple exactly for "enterprise", gray otherwise |
| UserProfile.TierColors | components/auth/UserProfile.tsx:130-137 | free gray, pro blue, enterprise purple |
| UserProfile.DisplayName | components/auth/UserProfile.tsx:184 | the full name when non-empty, else "User" |
| UserProfile.AvatarInitials | components/auth/UserProfile.tsx:180 | initials of the full name when non-empty, else of the email |
| UserProfile.TierLabelIsPlanTitle | components/auth/UserProfile.tsx:187 | the badge label equals the subscription card's plan title |
| UserProfile.TierLabel | components/auth/UserProfile.tsx:187 | the capitalized tier name followed by " Plan"; `TierLabelIsPlanTitle` states that it is the card's plan title |
| UserProfile.ProfileValidation | components/auth/UserProfile.tsx:43-57 | accepted exactly with a two-character name, a valid email and a consistent password change; the refinement's issue is on `confirmPassword` |
| UserProfile.PasswordChangeOk | components/auth/UserProfile.tsx:49-54 | the refinement: a new or confirmed password needs the current one and equal fields |
| UserProfile.ProfileIssues | components/auth/UserProfile.tsx:43-57 | the fields with an issue in schema order; `ProfileValidation` states when the form is accepted |
| UserProfile.DefaultsPassRefinement | components/auth/UserProfile.tsx:76-82 | the initial empty password fields pass the refinement |
| SignUpForm.SignUpAcceptedIff | components/auth/SignUpForm.tsx:38-50 | accepted exactly with a valid email, an 8-character password, a 2-character name, a known tier, accepted terms and equal passwords |
| SignUpForm.SignUpIssues | components/auth/SignUpForm.tsx:38-50 | the fields with an issue in schema order, the mismatch only with a known tier; `SignUpAcceptedIff` and `MismatchOnConfirmPassword` state its meaning |
| SignUpForm.MismatchOnConfirmPassword | components/auth/SignUpForm.tsx:47-50 | a mismatch is reported on `confirmPassword`, and only when the tier is known |
| SignUpForm.DefaultsRejected | components/auth/SignUpForm.tsx:111-118 | the initial values are rejected for the password, the name and the terms, not the tier |

## Left out

- Exporting (`handleExport`) and the refresh button: browser I/O and a spinner timer that changes no data.
- PriceTracker.Tracker.Scrape: one atomic step that scrapes the matrix as it is at commit time. The code computes the new matrix from the state captured at the click and commits it three seconds later, while the remove buttons and the add dialog stay live. The invariant is proved only for runs in which no other handler runs during those three seconds. `ScrapeRaceBreaksInvariant` shows what an overlapping run does.
- AuthContext.AuthProvider.LoadUserProfile, AuthContext.AuthProvider.HandleAuthEvent, AuthContext.AuthProvider.SignOut, AuthContext.AuthProvider.UpdateProfile: each is one atomic step across its awaits. In the code a `SIGNED_OUT` event can arrive while `loadUserProfile` awaits the fetch, and the profile it then sets leaves a profile without a user. `updateProfile` also reads the auth state of its render, not the latest one. `ProfileHasUser` is proved only for runs without such overlaps.
- TextUtils.ValidatePassword, SignUpForm.SignUpIssues, UserProfile.ProfileIssues, UserProfile.GetInitials: strings are sequences of Unicode scalar values, while JavaScript's `length`, the schema's `min` and `n[0]` count and index UTF-16 code units. A character outside the Basic Multilingual Plane counts once in the model and twice in the code: four emoji pass the 8-character check in the code but not in the model. The initial of such a character is a lone surrogate in the code and the whole character in the model.
- `Math.random()`: replaced by the `variation` parameter. The model allows any value, and some lemmas assume the range [-2, 2) that `(Math.random() - 0.5) * 4` gives.
- Floating point: prices and percentages are exact reals, and `toFixed(1)` is modelled as rounding to tenths (`Tenths`). Binary rounding is not modelled.
- PriceComparison.StatsOf: requires positive prices because `calculateStats` divides by the maximum price without a guard. The NaN a zero maximum would give is not modelled. The catalogue invariant (prices at least 0.99) makes the case unreachable.
- `formatCurrency`, `formatDate` and the date branch of `formatRelativeTime` use `Intl` and `toLocaleDateString`: only the bucket is modelled (`Absolute`).
- `generatePassword` and `cn`: randomness and class-name merging, outside the modelled logic.
- Supabase calls: replaced by their replies as inputs. `initializeAuth`, `signIn`, `signUp`, `resetPassword` and OAuth are session plumbing over those calls and are not modelled. Nor are the `catch` branches for thrown exceptions or the router pushes after sign-out.
- Rendering: JSX, icons and toasts are not modelled. Only the choice of what is rendered is, as a datatype value.
- The validation library's email check is the parameter `isEmail`. Zod's error messages are not modelled, only which fields have an issue.
- Case mapping is ASCII only: `toUpperCase` and `toLowerCase` on non-ASCII letters, and the CSS `capitalize` class on feature labels, are not modelled.
- SubscriptionCard.UsagePercentage: takes the current count as a natural number, because the counts passed in are list lengths. Negative counts are not modelled.
- The supplier status `error` of types/index.ts: the dashboard declares its own supplier type with three statuses (components/price-comparison-app.tsx:41), and those three are modelled.
- Aliasing in the scrape: `{ ...state.priceData }` copies only the outer map, so the code also rewrites the rows of the previous state. The model builds new rows and states only the new matrix.
- `SUBSCRIPTION_LIMITS` lives in a file that is not part of this model. It is the parameter `LimitsTable`, and `-1` stands for unlimited.
- PasswordResetForm, the pages under pages/ and AppWithAuth are wrappers around the modelled components.

## Findings

| source | as written | input that shows it | evidently intended | confidence | as-written member | corrected member |
|---|---|---|---|---|---|---|
| components/price-comparison-app.tsx:323, components/price-comparison-app.tsx:345 | `Math.max(...ids) + 1` is `-Infinity` for an empty list | remove every product, then add two products: both get id `-Infinity` | the first id is 1, and ids never repeat | not executed | PriceTracker.EmptyCatalogRepeatsId | PriceTracker.NextId |
| components/price-comparison-app.tsx:285 | the scrape's timer commits a matrix computed from the state captured at the click | click Scrape, remove a product within three seconds: its row comes back (or add one: it has no row) | the timer updates the state it finds, as a functional `setState(prev => …)` would | not executed | PriceTracker.ScrapeRaceBreaksInvariant | PriceTracker.Tracker.Scrape |

Two behaviours of the code are modelled as written, although a reader might expect otherwise:

- The session of the auth state is only ever set by a `TOKEN_REFRESHED` event. `loadUserProfile` keeps the previous session.
- In the sign-up schema, an unknown tier stops the object-level refinement, so a password mismatch is not reported then.

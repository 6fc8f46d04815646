# Hotel PMS: tariffs, reservations and sign-ins, verified

A model of the hotel property-management system in which a partner (the crew
accommodation platform) confirms corporate tariffs, books rooms through an API and
signs its dispatchers in by link. The files check together with
`dafny verify dfyconfig.toml`.

## What is modelled

* **Tariffs.** The price of a night comes from day rows, seasons and standard
  prices (`Tariffs`, `RateResolution`, `Availability`), or up an inheritance chain
  with rounded modifiers (`Pricing`). A partner's confirmation is not stored: it is
  recomputed from a canonical fingerprint (`CanonicalJson`, `Fingerprint`,
  `TariffReview`). `FingerprintPrice` proves what the fingerprint is worth, `Rates`
  and `TariffNotices` when a notice is due, `RatePlans` and `PlanChoice` that the
  plan editor keeps the choice of a tariff unambiguous.
* **Reservations.** `RoomPlaces` allocates places, `ReservationBook` gives every
  operation on the book as a function of the book, `Reservations` is the service
  object proved to compute it, `ReservationRows` says field by field what each
  operation writes, `ReservationSafety` and `ReservationPlaces` which steps keep
  guests out of each other's way, `RoomChoice` picks the room for
  the partner, and `IdempotentCreate` is the protocol that makes a partner's
  request count once under any interleaving.
* **Sign-ins.** `SessionRefresh` is the object inside a browser tab,
  `SessionCookies` the path rule of section 5.1.4 of RFC 6265, `SessionProtocol` the
  whole browser and server with late replies, `AuthService` the server's calls on its
  refresh rows, people and one-time codes. `LoginThrottle` bounds failed sign-ins.
* **Mirrors.** `ContractSync` and `DirectorySync` replace a partner's documents and
  directory by the set sent.

`Options`, `Sequences` and `KeyedRows` are the shared vocabulary: optional values,
filtering and stable sorting, rows kept under a key.

## Conventions

* Dates are day numbers, money is a whole number of hundredths, percentages carry
  two decimals as whole numbers, identifiers are opaque. Decimal arithmetic is
  exact; `Pricing` rounds where the program rounds. The bill at check-out is summed
  in exact hundredths too: the program sums binary floating-point numbers there, so a
  debt of exactly one hundredth may be refused.
* A document's first and last day are moments in milliseconds; the day of such a
  moment is its day in UTC.
* A table is the sequence of its rows in the order the database returns them, and
  every query returns the rows its WHERE clause names for the tenant in context.
* A database transaction is one step, except in `IdempotentCreate`, where lookup,
  preflight, lock, second lookup, insert, commit and the handler's lookup are steps
  of their own. Dropping the price cache belongs to the edit that asks for it.
* The hash is injective, so a fingerprint is the content it is taken of.
  `localeCompare` is any total order that ties exactly on equal sort keys; sort
  keys and document keys are records, not strings joined by `|`.
* A refresh row that has expired counts as revoked; that may happen to any row at any time.
* The server's clock, new identifiers, signatures and failures of the network are
  parameters.

## What turned out false, and exactly when it holds

* A season's `sortOrder` decides the price but is not fingerprinted:
  `FingerprintPrice.SortOrderIrrelevantIff`, witness `SortOrderWitness`.
* Two season rows for one window and guest count can change the fingerprint without
  a notice: `Rates.NoticeReliableIff`, witness `TiedSeasonsMoveSilently`.
* The price cache leaves the category base price out of its key:
  `Availability.CacheStep` and `BaseMatters`, witness `StaleBaseWitness`.
* A status sent alone revives a cancelled or no-show row without looking at the
  room: `ReservationSafety.WholeRoomStepIff` and `ReservationPlaces.PlacesStepIff`,
  witness `RevivalWitness`.
* `allocatePlace` counts free places and does not ask that they be adjacent:
  `RoomPlaces.SeatsAreFreeIff` and `ReservationPlaces.PlacesStepIff`, witnesses
  `FragmentedRoom` and `FragmentedCreateWitness`.
* A swap looks at neither dates nor neighbours: `ReservationPlaces.SwapSafeIff`,
  witnesses `DifferentNightsWitness` and `CancelledPartnerWitness` (equal nights are
  not enough when one of the two is cancelled).
* Half a hundredth for each rounded step holds for discounts only; a surcharge
  magnifies the roundings before it. `Pricing.ChainStaysWithin` bounds every chain,
  witness `SurchargeStraysFurther`.
* A document stored twice under one key survives the sync twice:
  `ContractSync.SyncExactIff`. The table allows it, since its unique index tells apart
  a missing and an empty amendment number, and two moments of one day: witness
  `TwoHoursWitness`.
* A refused request is repeated under the token the refresh hands back, whatever it
  was sent under: `SessionRefresh.RetriedUnderSameSessionIff`, witnesses
  `RetriedElsewhere` (a sign-in while the refresh is on its way) and
  `RetriedAfterSignIn` (a sign-in before the refusal comes back).
* A refresh on its way is granted only if nothing used its cookie up first:
  `SessionProtocol.GrantedIffUnspent`. Two tabs of one sign-in that refresh at once
  send one cookie, and the second is stopped or signed out: witness `RacingTabs`.

## Model

| member | source | states |
|---|---|---|
| RateResolution.PickMeaning | backend/src/modules/pricing/rate-resolution.ts:43-49 | with a known party the price is one set for exactly that party, else one for any number, never another's; with an unknown party "any number", else the smallest count filled in; none exactly when no admissible row exists |
| RateResolution.PickSame | backend/src/modules/pricing/rate-resolution.ts:43-49 | the choice by guest count does not depend on the order of the rows |
| RateResolution.FirstPreferred | backend/src/modules/pricing/rate-resolution.ts:43-49 | of several rows for the deciding number of guests the one listed first is taken, the smallest count included |
| RateResolution.TopMeaning | backend/src/modules/pricing/rate-resolution.ts:92-97 | the season that counts covers the day and no covering season starts later or, starting alike, has a higher sort order |
| RateResolution.SortedHeadIsTop | backend/src/modules/pricing/rate-resolution.ts:69-74 | the first covering row of the list sorted in place is that season |
| RateResolution.WindowUnsorted | backend/src/modules/pricing/rate-resolution.ts:95-97 | the rows of one window come out of sorting and filtering in the order they were listed |
| RateResolution.IndexedSeasonPrice | backend/src/modules/pricing/rate-resolution.ts:92-99 | looking up the head of the sorted list gives the price the plain scan gives |
| RateResolution.BaselineResolver.constructor | backend/src/modules/pricing/rate-resolution.ts:62-81 | the two index maps hold the rows of each plan and category, seasons sorted, for the very rows given |
| RateResolution.BaselineResolver.SortLists | backend/src/modules/pricing/rate-resolution.ts:69-74 | every list is ranked and none gains or loses a row |
| RateResolution.BaselineResolver.Resolve | backend/src/modules/pricing/rate-resolution.ts:87-103 | the indexed lookup refines the plain rule: season of highest rank, its price for the party, else the standard price |
| RateResolution.SeasonOrderFree | backend/src/modules/pricing/rate-resolution.ts:69-99 | with one price per window and party and no ties between windows the season price ignores the order of the input |
| RateResolution.StandardOrderFree | backend/src/modules/pricing/rate-resolution.ts:102-102 | so does the standard price, with one price per guest count |
| RateResolution.ResolveOrderFree | backend/src/modules/pricing/rate-resolution.ts:87-103 | so does the resolved price |
| RateResolution.SeasonIsCharged | backend/src/modules/pricing/rate-resolution.ts:69-99 | of the seasons of the plan and category whose window, ends included, has the day the one that starts last decides, then the higher sort order, and within its window the row for the party |
| RateResolution.StandardIsCharged | backend/src/modules/pricing/rate-resolution.ts:100-102 | only when no season covers the day, or the deciding window has rows for other parties only, the standard price for the party |
| RateResolution.NothingIsCharged | backend/src/modules/pricing/rate-resolution.ts:87-103 | and without a standard row for the party there is no price |
| RateResolution.TouchingSuffices | backend/src/modules/inventory/availability.service.ts:445-461 | loading only the seasons that touch the stay changes no night of it |
| Availability.StayDatesMeaning | backend/src/modules/inventory/availability.service.ts:412-415 | the nights of a stay run from the arrival to the day before the departure |
| Availability.PartnerNightByRow | backend/src/modules/inventory/availability.service.ts:497-526 | for a known party a partner's night is priced by a row for exactly that party or for any number, and never by the category base price |
| Availability.DayRowIsCharged | backend/src/modules/inventory/availability.service.ts:497-526 | a price set for the night itself comes before season, standard and base price: for a known party the row for exactly that number, then the one for any number; with neither, for a hotel's own plan or an unknown party, the cheapest |
| Availability.NightWithoutDayRow | backend/src/modules/inventory/availability.service.ts:520-526 | without such a row the season decides, then the standard price, and last, for the hotel's own plans only, a positive base price |
| Availability.OfferMeaning | backend/src/modules/inventory/availability.service.ts:509-555 | a plan is offered exactly when the stay has a night and every night has a price; the offer carries the plan's names and conditions, the total is the sum, nights times nightlyFrom is at most the total, and nightlyFrom is the least of the nights |
| Availability.QuoteMembers | backend/src/modules/inventory/availability.service.ts:509-558 | the answer lists exactly the offers the active plans make over the whole price book, and for a stay without a night it is empty |
| Availability.OffersInOrder | backend/src/modules/inventory/availability.service.ts:509-556 | offers come in the order of the plans: one more plan adds its offer, if it makes one, at the end |
| Availability.OwnPriceLoaded | backend/src/modules/inventory/availability.service.ts:434-466 | the rows the queries load give each night the price the whole book gives |
| Availability.QuoteLoaded | backend/src/modules/inventory/availability.service.ts:434-466 | so the whole answer is the one the whole book gives |
| Availability.GroupDays | backend/src/modules/inventory/availability.service.ts:490-496 | the map built in one pass lists, per plan and day, the day rows in table order |
| Availability.PriceOneNight | backend/src/modules/inventory/availability.service.ts:520-526 | the loop body computes the night whose precedence `DayRowIsCharged` and `NightWithoutDayRow` state: day row, else season or standard price, else, for the hotel's own plans only, the base price |
| Availability.PriceNights | backend/src/modules/inventory/availability.service.ts:520-536 | the loop's running total is the sum, lost at the first night without a price, and its running minimum the cheapest night |
| Availability.PricePlan | backend/src/modules/inventory/availability.service.ts:510-555 | one plan's loop computes its offer, or none when a night has no price |
| Availability.PricePlans | backend/src/modules/inventory/availability.service.ts:509-556 | the loop over the plans computes the offers in order |
| Availability.ComputeQuote | backend/src/modules/inventory/availability.service.ts:411-559 | the uncached computation equals the specification over the loaded rows, the early empty answer for a stay without a night included |
| Availability.AvailabilityService.PriceByPlan | backend/src/modules/inventory/availability.service.ts:398-406 | answers from the cache or computes and stores; the new state is the cache machine's next |
| Availability.AvailabilityService.Expire | backend/src/modules/inventory/availability.service.ts:561-561 | stored answers may disappear, nothing else changes |
| Availability.AvailabilityService.EditPrices | backend/src/modules/inventory/inventory.service.ts:61-64 | a tariff or price edit drops exactly the cached plan prices of its hotel |
| Availability.AvailabilityService.SetBasePrice | backend/src/modules/inventory/availability.service.ts:390-409 | a base price change drops nothing |
| Availability.AnswersStay | backend/src/modules/inventory/availability.service.ts:398-409 | a stored answer goes only when it runs out or its own hotel's prices are edited; a question leaves its answer stored |
| Availability.CacheStep | backend/src/modules/inventory/availability.service.ts:398-409 | an event keeps every cached answer equal to a fresh one if and only if it is not a base price change under an answer that used the base price |
| Availability.CacheCoherence | backend/src/modules/inventory/inventory.service.ts:52-64 | over every run of questions, expiries, edits and harmless base price changes a cached answer equals a fresh one |
| Availability.BaseMatters | backend/src/modules/inventory/availability.service.ts:399-409 | two base prices give one answer if and only if they fall back alike or no own plan falls back on a night |
| Availability.StaleBaseWitness | backend/src/modules/inventory/availability.service.ts:398-409 | a plan without prices is quoted at the base price, the base price changes, and the cached answer is no longer the fresh one |
| CanonicalJson.CanonicalDecides | backend/src/modules/rate-plans/operator-tariff-status.ts:82-90 | two documents have one canonical form if and only if they differ at most in the order of fields |
| Fingerprint.PricePartDecides | backend/src/modules/rate-plans/operator-tariff-status.ts:126-140 | equal price parts mean equal multisets of rows, and conversely once window-and-guest rows are unique |
| Fingerprint.ResendKeepsFingerprint | backend/src/modules/rate-plans/operator-tariff-status.ts:76-121 | the same documents sent again, in any order and with fields in any order, keep the fingerprint |
| Fingerprint.FingerprintTellsApart | backend/src/modules/rate-plans/operator-tariff-status.ts:102-155 | equal fingerprints mean equal content: the plans agree in meal, occupancy pricing, modifier, account, customer, guest kind and VAT, every document that concerns the one has its like, rows included, among those that concern the other and back, and the price rows are the same multiset |
| Fingerprint.SameFingerprintIff | backend/src/modules/rate-plans/operator-tariff-status.ts:102-170 | and equal content means equal fingerprints, when neither sheets nor price rows repeat a key |
| Fingerprint.SnapshotIsPrices | backend/src/modules/rates/rates.service.ts:55-61 | the snapshot lines and the fingerprint's price lines carry the same information |
| Fingerprint.SnapshotDecides | backend/src/modules/rates/rates.service.ts:46-62 | two snapshots are equal exactly when the plan's rows are the same multiset |
| Fingerprint.NoticeMatchesFingerprint | backend/src/modules/rates/rates.service.ts:28-43 | with unique rows the snapshot moves exactly when the price part of the fingerprint moves |
| FingerprintPrice.SamePricesSameBook | backend/src/modules/rate-plans/rate-plans.service.ts:530-603 | equal price lines mean the same rows in all three stores, up to the sort order of seasons |
| FingerprintPrice.FingerprintDeterminesCharge | backend/src/modules/rate-plans/operator-tariff-status.ts:35-53 | two states of a partner's plan with one fingerprint charge every category, stay and party alike, given unique rows of that plan and seasons of that plan whose order their dates settle; other plans may be anything |
| FingerprintPrice.SortOrderIrrelevantIff | backend/src/modules/rate-plans/operator-tariff-status.ts:126-140 | the sort orders of a plan's seasons cannot change a price if and only if seasons starting together agree on guests and price |
| FingerprintPrice.SortOrderWitness | backend/src/modules/pricing/rate-resolution.ts:69-74 | two states with one fingerprint that charge 2800 and 3200 |
| TariffReview.ReviewsAreHistory | backend/src/modules/rate-plans/rate-plans.service.ts:329-378 | over every run what is stored is the last verdict, given for the content then current and over a non-empty document set |
| TariffReview.AppliesIff | backend/src/modules/rate-plans/operator-tariff-status.ts:200-245 | over every run a tariff applies exactly when the last verdict confirmed the content as it stands now; `AppliesWhileAgreed` says what the content is |
| TariffReview.AppliesWhileAgreed | backend/src/modules/rate-plans/operator-tariff-status.ts:200-245 | over every run a tariff that applies has the terms, the documents with their rows, and the prices of the moment it was confirmed; without repeated keys it applies exactly while it has |
| TariffReview.StateIff | backend/src/modules/rate-plans/operator-tariff-status.ts:200-245 | over every run the shown state is draft, rejected, stale or confirmed exactly by whether there is a last verdict, what it was and whether its content still stands; a draft names the missing contract, the missing prices or the awaited verdict exactly when that is so |
| TariffReview.AppliesOverDocuments | backend/src/modules/rate-plans/rate-plans.service.ts:337-344 | a tariff that applies has documents now |
| TariffReview.RejectionStands | backend/src/modules/rate-plans/operator-tariff-status.ts:225-234 | a rejection outlives every edit and resent document until the next verdict |
| TariffReview.ConfirmedChargeHolds | backend/src/modules/rate-plans/rate-plans.service.ts:608-634 | a tariff that applies charges exactly what it charged when its confirmation was recorded, with hypotheses on that plan's own rows only |
| TariffNotices.AppliesWhilePricesStand | backend/src/modules/rate-plans/operator-tariff-status.ts:236-244 | with documents and conditions unchanged a confirmed tariff goes on applying exactly while its price part stands |
| TariffNotices.NoticeIsLostConfirmation | backend/src/modules/rates/rates.service.ts:28-43 | a price edit requests a notice for a confirmed tariff if and only if it drops the confirmation |
| TariffNotices.NoConfirmationLostSilently | backend/src/modules/rates/rates.service.ts:28-43 | no run of price edits takes a confirmation away without a notice for that tariff |
| PlanChoice.PickedAreMostSpecific | backend/src/modules/rate-plans/partner-tariff-match.ts:53-58 | the picked plans are exactly the matching plans that no matching plan is more specific than |
| PlanChoice.MatchesIff | backend/src/modules/rate-plans/partner-tariff-match.ts:36-47 | a plan serves a request of its partner exactly when it is active and each condition it names is the request's |
| PlanChoice.PickedByCondition | backend/src/modules/rate-plans/partner-tariff-match.ts:30-33 | a named customer outweighs account and kind of guest together, a named account outweighs the kind: a picked plan names the customer when any matching plan does, and so on down |
| PlanChoice.EquallySpecificSameScope | backend/src/modules/rate-plans/partner-tariff-match.ts:36-47 | two matching plans of one 4/2/1 weight have equal conditions |
| PlanChoice.PickedDifferInMeals | backend/src/modules/rate-plans/partner-tariff-match.ts:49-58 | when active partner plans are unique in conditions and meal the picked plans have pairwise different meals |
| RatePlans.StepKeepsPlansOk | backend/src/modules/rate-plans/rate-plans.service.ts:468-500 | every operation keeps partner plans standing alone and unique in conditions and meal |
| RatePlans.RunKeepsPlansOk | backend/src/modules/rate-plans/rate-plans.service.ts:66-179 | so does every run of the plan editor, reviews and syncs |
| RatePlans.ChoiceIsByMeal | backend/src/modules/rate-plans/partner-tariff-match.ts:49-58 | in every state a run reaches the plans picked for any query are the most specific matches and differ in their meals |
| RatePlans.UpdateIff | backend/src/modules/rate-plans/rate-plans.service.ts:101-165 | an edit writes what is sent and keeps what is left out, conditions included, and is accepted if and only if the plan it leaves is not its own parent, has a code of its own and, for a partner, an active partner, an active account and customer of that partner, no parent and no active rival |
| RatePlans.CreateIff | backend/src/modules/rate-plans/rate-plans.service.ts:66-99 | a creation is such an edit of a blank plan |
| RatePlans.EditRefusalIsTrue | backend/src/modules/rate-plans/rate-plans.service.ts:101-165 | an edit is refused only for a reason that holds of the plan it would have left: a partner switched off, a foreign account or customer, a parent, a rival, a code in use |
| RatePlans.RemovedMeaning | backend/src/modules/rate-plans/rate-plans.service.ts:167-179 | exactly the plan, its review and its price rows go, and exactly its children lose their parent |
| RatePlans.ReviewIff | backend/src/modules/rate-plans/rate-plans.service.ts:319-378 | a verdict is recorded if and only if the plan is a partner's, a document concerns it and the content seen is the content now |
| RatePlans.RatePlansService.constructor | backend/src/modules/rate-plans/rate-plans.service.ts:27-31 | a hotel without plans satisfies the editor's invariant |
| RatePlans.RatePlansService.Create | backend/src/modules/rate-plans/rate-plans.service.ts:66-99 | creates the plan or refuses in the order of the checks, and keeps the invariant |
| RatePlans.RatePlansService.Update | backend/src/modules/rate-plans/rate-plans.service.ts:101-165 | edits the plan, keeping what is not sent, or refuses; keeps the invariant |
| RatePlans.RatePlansService.Remove | backend/src/modules/rate-plans/rate-plans.service.ts:167-179 | removes the plan with its prices and review and orphans its children |
| RatePlans.RatePlansService.ApplyOperatorReview | backend/src/modules/rate-plans/rate-plans.service.ts:319-378 | records the verdict only over a document and only for the content the operator saw |
| Pricing.PriceNight | backend/src/modules/pricing/pricing.calculator.ts:106-186 | the walk up and back down gives the night of the recursive rule: own price, or the parent's through the modifier |
| Pricing.ChainNightMeaning | backend/src/modules/pricing/pricing.calculator.ts:117-185 | the plan nearest the leaf with a price supplies it, and every lower modifier is applied once |
| Pricing.OwnNightByDay | backend/src/modules/pricing/pricing.calculator.ts:128-152 | a plan's own night is its day row for the party, else, marked as a fallback, the one for the base party; without prices by the party, the one for the base party |
| Pricing.OwnNightByBaseline | backend/src/modules/pricing/pricing.calculator.ts:154-158 | only without such a row the season decides, then the standard price, else there is none |
| Pricing.QuotedNight | backend/src/modules/pricing/pricing.calculator.ts:160-186 | a night is charged by the first plan up the chain with a price through the modifiers below, and says which plan, whether a parent, and whether by fallback; without one it costs nothing and says so |
| Pricing.CalculatePricing | backend/src/modules/pricing/pricing.calculator.ts:33-102 | nights, warnings and total of the stay are those of the per-night rule; a departure before the arrival is an error |
| Pricing.StaySplits | backend/src/modules/pricing/pricing.calculator.ts:65-86 | splitting a stay at any day splits its nights, warnings and total |
| Pricing.StayMeaning | backend/src/modules/pricing/pricing.calculator.ts:65-102 | a stay is its nights in turn, its warnings exactly the days without a price, its total the sum |
| Pricing.ChainEnds | backend/src/modules/pricing/pricing.service.ts:56-82 | a quote looks at the plan and its stored parents in turn and stops only at the fifth, at a plan without a parent or at one whose parent is missing |
| Pricing.DepthBoundIff | backend/src/modules/pricing/pricing.service.ts:56-82 | ancestors beyond a bound change a night if and only if nothing before them has a price and something beyond does |
| Pricing.CycleChangesNothing | backend/src/modules/pricing/pricing.service.ts:56-82 | a cycle among the parents changes no night: the chain may be cut at the first plan that comes back |
| Pricing.LoadParents | backend/src/modules/pricing/pricing.service.ts:56-82 | the bounded loop collects the first five ancestors, stopping at a missing one |
| Pricing.MakeMapLookup | backend/src/modules/pricing/pricing.calculator.ts:229-249 | later rows for one key overwrite earlier ones |
| Pricing.QuoteStay | backend/src/modules/pricing/pricing.service.ts:26-171 | refuses bad dates and missing rows; otherwise the rows loaded give the breakdown the whole price book gives |
| Pricing.RoundNear | backend/src/modules/pricing/pricing.calculator.ts:202-204 | rounding moves an amount by at most half a hundredth and keeps it non-negative |
| Pricing.ChainMonotone | backend/src/modules/pricing/pricing.calculator.ts:170-209 | through any modifiers a non-negative base gives a non-negative price, and a dearer base never a lower one |
| Pricing.ChainStaysWithin | backend/src/modules/pricing/pricing.calculator.ts:188-209 | for every chain and every non-negative base the rounded price differs from the unrounded one by at most a bound computed step by step: a percentage step scales the bound by its factor and adds half a hundredth, any other step leaves it |
| Pricing.DiscountsStayClose | backend/src/modules/pricing/pricing.calculator.ts:188-209 | with percentages of at most zero and absolute amounts that bound is at most half a hundredth for each percentage step |
| Pricing.SurchargeStraysFurther | backend/src/modules/pricing/pricing.calculator.ts:188-209 | with a surcharge half a hundredth for each percentage step is not enough: one hundredth, minus 33 %, plus 900 % |
| Rates.BulkUpsertMeaning | backend/src/modules/rates/rates.service.ts:84-117 | each day key holds the last price sent for it, for two guests and in roubles unless said otherwise, or what it held; seasons and standard prices stay |
| Rates.FillRangeMeaning | backend/src/modules/rates/rates.service.ts:136-181 | exactly the days of the range get the price for that category and party, no other key changes |
| Rates.SetAllMeaning | backend/src/modules/rates/rates.service.ts:226-260 | each category and party holds the last positive price sent, or nothing when the last one sent was not positive |
| Rates.SetStandardMeaning | backend/src/modules/rates/rates.service.ts:226-260 | each category and party of the plan holds the last price sent for it, for any number of guests and in roubles unless said otherwise, or nothing when it was not positive |
| Rates.SetStandardLeaves | backend/src/modules/rates/rates.service.ts:226-260 | a category and party for which nothing was sent, and the other two tables, stay as they were |
| Rates.RefusedIff | backend/src/modules/rates/rates.service.ts:136-310 | refused are exactly a range that runs backwards or exceeds 366 days, a season that ends before it starts and a day price that is not there |
| Rates.SeasonRowsMeaning | backend/src/modules/rates/rates.service.ts:301-317 | the season rows written are one per charged category of each season, for any number of guests, in roubles and in the order of sending unless said otherwise |
| Rates.ReplaceSeasonsMeaning | backend/src/modules/rates/rates.service.ts:288-319 | the plan is left with exactly the seasons sent; other plans keep theirs |
| Rates.EditKeepsSchema | backend/src/modules/rates/rates.service.ts:84-260 | no edit breaks the unique keys of day and standard rows |
| Rates.OtherPlansKeepPrices | backend/src/modules/rates/rates.service.ts:84-329 | a plan the edit does not name keeps all its prices |
| Rates.RemovalMoves | backend/src/modules/rates/rates.service.ts:202-208 | deleting a day price always moves its plan's prices |
| Rates.NoticeWhenPricesMove | backend/src/modules/rates/rates.service.ts:28-62 | for every edit and every plan, named or not, a notice is requested if and only if the price part of the plan's fingerprint changes |
| Rates.TiedSeasonsMoveSilently | backend/src/modules/rates/rates.service.ts:46-62 | two season prices for one window and party: listed in another order they move the fingerprint and not the snapshot |
| Rates.NoticeReliableIff | backend/src/modules/rates/rates.service.ts:28-62 | the snapshot follows the fingerprint through every change if and only if the plan has one row per window and party |
| Rates.NoSilentMove | backend/src/modules/rates/rates.service.ts:28-43 | over every run of edits, a plan whose price part moved was named in a notice |
| Rates.RatesService.Snapshot | backend/src/modules/rates/rates.service.ts:46-62 | the lines pushed in one pass over each table, sorted, are each plan's snapshot |
| Rates.RatesService.PricesChanged | backend/src/modules/rates/rates.service.ts:33-43 | exactly the plans whose snapshot differs get a notice, in order |
| Rates.RatesService.BulkUpsert | backend/src/modules/rates/rates.service.ts:84-134 | the upsert loop leaves the specified tables and notices |
| Rates.RatesService.FillRange | backend/src/modules/rates/rates.service.ts:136-200 | refuses a backward range or one over 366 days, else fills it and notifies |
| Rates.RatesService.SetStandard | backend/src/modules/rates/rates.service.ts:226-269 | the upsert-or-delete loop leaves the specified tables and notices |
| Rates.RatesService.ReplaceSeasons | backend/src/modules/rates/rates.service.ts:288-329 | refuses a season that ends before it starts, else replaces and notifies |
| Rates.RatesService.Remove | backend/src/modules/rates/rates.service.ts:202-208 | deletes the day price and always notifies; a missing row is refused |
| RoomPlaces.AllocatePlace | backend/src/modules/reservations/room-places.ts:40-57 | the loops over taken places and over the room compute the specified answer |
| RoomPlaces.AllocateMeaning | backend/src/modules/reservations/room-places.ts:40-57 | by places the answer is null exactly when too few are free; otherwise it is the least free place and the whole party fits inside the room, so the last null is never reached |
| RoomPlaces.RoomFitsIff | backend/src/modules/reservations/room-places.ts:59-67 | a room fits exactly when enough places are free, or in a whole-room hotel when nobody is in it |
| RoomPlaces.SeatsAreFreeIff | backend/src/modules/reservations/room-places.ts:52-56 | every party let in sits on free places only, if and only if the free places follow one another |
| RoomPlaces.OnePersonSeats | backend/src/modules/reservations/room-places.ts:52-56 | a single guest always gets a free place |
| RoomPlaces.FragmentedRoom | backend/src/modules/reservations/room-places.ts:52-56 | three places, the middle one taken: a party of two is seated over it |
| RoomChoice.RoomsFitByPlaces | backend/src/modules/connectivity/connectivity.service.ts:1440-1484 | one query and one pass give each room the answer of the rule of places |
| RoomChoice.PickAvailableRoom | backend/src/modules/connectivity/connectivity.service.ts:1414-1433 | the first room of the list that takes the party |
| RoomChoice.ResolvePinnedRoom | backend/src/modules/connectivity/connectivity.service.ts:1383-1411 | a named room is taken exactly when it is on sale, of the category and takes the party, and why not otherwise |
| RoomChoice.FitsIffAccepted | backend/src/modules/connectivity/connectivity.service.ts:1435-1439 | the search and the creation agree: a room fits exactly when creating the reservation in it is accepted |
| RoomChoice.PickedIsAccepted | backend/src/modules/connectivity/connectivity.service.ts:1414-1433 | the room picked is the first the creation accepts; none is picked only when it accepts none |
| ReservationBook.FormIsButton | backend/src/modules/reservations/reservations.service.ts:410-419 | a new fact status sent alone through the form gives the same book, answer and refusals as the button, the settled bill included |
| ReservationBook.RepeatedStatusIsNoFact | backend/src/modules/reservations/reservations.service.ts:414-416 | the status a row already has is no new fact: only the version moves |
| ReservationBook.CancelFormIsButton | backend/src/modules/reservations/reservations.service.ts:421-427 | "cancelled" through the form and the button agree in refusals and result, but for the note the button leaves |
| ReservationBook.StepCarries | backend/src/modules/reservations/reservations.service.ts:381-393 | a step adds exactly one version to each row it changes, loses no row, never changes whose row it is, and, unless it is the partner's act on that row, changes neither the guests nor the life of a partner's row |
| ReservationBook.RunCarries | backend/src/modules/reservations/reservations.service.ts:522-544 | over every run a version counts the row's successful changes, and a partner's row keeps its guests and is not cancelled unless the partner acts on that very row |
| ReservationBook.StatusesMoveLawfully | backend/src/modules/reservations/reservations.service.ts:38-69 | whatever the step, by form, button, partner or swap, a row becomes checked in or no-show only from new or confirmed, checked out only from checked in and with a settled bill, cancelled never from checked out; and the times of arrival and departure change only with their fact |
| ReservationBook.PaymentSettlesIff | backend/src/modules/folio/folio.service.ts:112-135 | a payment lets the guest check out exactly when it leaves at most one hundredth owing, and a refund takes that away exactly when it leaves more |
| ReservationBook.ChargeUnsettlesIff | backend/src/modules/folio/folio.service.ts:112-135 | an empty bill is settled, and a charge closes the gate exactly when it leaves more than one hundredth owing |
| ReservationRows.CreatedRow | backend/src/modules/reservations/reservations.service.ts:169-228 | a creation stores exactly what was sent, confirmed unless said otherwise, in the room's category, at version 1, the partner's exactly when the channel made it, on place 1 of a whole room or on the least free place |
| ReservationRows.CreateIff | backend/src/modules/reservations/reservations.service.ts:130-178 | it is accepted if and only if it has a night, an active room, and the party fits there |
| ReservationRows.PartnerKeepsIts | backend/src/modules/reservations/reservations.service.ts:213-213 | over every run in which the partner does not act on it a reservation the partner made stays the partner's with the party sent, is not cancelled, and staff cannot cancel it |
| ReservationRows.CancelIff | backend/src/modules/reservations/reservations.service.ts:960-993 | an open reservation is cancelled by whoever owns it and nobody else, and the reason joins the notes |
| ReservationRows.FactIff | backend/src/modules/reservations/reservations.service.ts:803-876 | a button records its fact from the statuses that allow it, leaving only with a settled bill, and notes the time of arrival or departure |
| ReservationRows.OnlyLeavingDirties | backend/src/modules/reservations/reservations.service.ts:861-876 | whatever the step, the room a guest leaves is marked to be cleaned and no other room, bill or setting changes |
| ReservationRows.EditedRowMeaning | backend/src/modules/reservations/reservations.service.ts:488-545 | an accepted edit writes what was sent and keeps the rest; another room brings its category, a new fact its time |
| ReservationRows.EditedPlace | backend/src/modules/reservations/reservations.service.ts:435-486 | the place asked for, free, is the place given; otherwise the row keeps its place or, seated anew, gets the least free one |
| ReservationRows.SwapIff | backend/src/modules/reservations/reservations.service.ts:640-689 | two rows of one room at the versions named exchange places and nothing else; any other swap is refused |
| ReservationRows.RefusalsAreTrue | backend/src/modules/reservations/reservations.service.ts:305-577 | no step of any kind is refused for a reason that does not hold of the book: version, guests, dates, status, bill, owner, room |
| ReservationRows.PlaceRefusals | backend/src/modules/reservations/reservations.service.ts:169-178 | a place is refused only when one of its span is held or outside the room, and a creation only when the room is occupied or too few places are free |
| ReservationSafety.WriteClearIff | backend/src/modules/reservations/reservations.service.ts:1115-1140 | storing a row keeps the book free of clashes exactly when the row clashes with no other |
| ReservationSafety.WholeRoomStepIff | backend/src/modules/reservations/reservations.service.ts:435-486 | with places not sold separately a step keeps every room to one reservation a night, except exactly an accepted edit that revives a dead row over an occupied room without asking for a place |
| ReservationSafety.WholeRoomEditIff | backend/src/modules/reservations/reservations.service.ts:376-486 | with places not sold separately an edit is accepted if and only if it is made against the stored version, keeps a partner's guest count, leaves a night, moves the status as it may, and, when it asks for a place, finds the room on sale, empty on every night and with the place named |
| ReservationSafety.ClashIsSharedNight | backend/src/modules/reservations/reservations.service.ts:1126-1130 | the overlap condition of the query is sharing a night |
| ReservationSafety.WholeRoomRun | backend/src/modules/reservations/reservations.service.ts:169-178 | over every run without such a revival no room is booked twice for a night |
| ReservationSafety.RevivalWitness | backend/src/modules/reservations/reservations.service.ts:443-450 | a cancelled reservation brought back by its status alone over the one made since |
| ReservationPlaces.PlacesStepIff | backend/src/modules/reservations/reservations.service.ts:435-486 | sold by places, a step other than a swap puts two parties on one place if and only if it is accepted and either revives a dead row over a taken place without asking for one, or looks for a new place and the span from the least free place is not free |
| ReservationPlaces.SeatableIsSafe | backend/src/modules/reservations/reservations.service.ts:460-485 | a single guest, or a party for which the free places follow one another, is never seated over anybody |
| ReservationPlaces.SwapSafeIff | backend/src/modules/reservations/reservations.service.ts:640-689 | between single guests a swap is safe if and only if no third guest holds either place on the nights of its new owner |
| ReservationPlaces.SameNightsSwap | backend/src/modules/reservations/reservations.service.ts:640-689 | two reservations for the same nights, both counting or neither, swap safely |
| ReservationPlaces.DifferentNightsWitness | backend/src/modules/reservations/reservations.service.ts:669-685 | different nights: a swap puts two guests on one bed |
| ReservationPlaces.CancelledPartnerWitness | backend/src/modules/reservations/reservations.service.ts:669-685 | same nights but one of the two cancelled: a swap puts two guests on one bed |
| ReservationPlaces.FragmentedCreateWitness | backend/src/modules/reservations/reservations.service.ts:169-178 | a party of two is accepted and seated over a guest |
| ReservationPlaces.SingleGuestsRun | backend/src/modules/reservations/reservations.service.ts:460-485 | over every run of single guests, without unchecked revivals and with swaps between equal stays, no two guests share a place on a night |
| Reservations.ReservationsService.constructor | backend/src/modules/reservations/reservations.service.ts:78-80 | an empty book over the given rooms |
| Reservations.ReservationsService.Create | backend/src/modules/reservations/reservations.service.ts:108-268 | computes the creation whose row `ReservationRows.CreatedRow` gives field by field, or refuses |
| Reservations.ReservationsService.StampFact | backend/src/modules/reservations/reservations.service.ts:861-876 | check-in and check-out leave their time, a check-out leaves its room dirty |
| Reservations.ReservationsService.ResolvePlace | backend/src/modules/reservations/reservations.service.ts:435-486 | the place asked for if its span is free, the own place if still free, else a newly allocated one |
| Reservations.ReservationsService.WriteEdit | backend/src/modules/reservations/reservations.service.ts:488-545 | stores the edited row and the traces of a new fact |
| Reservations.ReservationsService.Update | backend/src/modules/reservations/reservations.service.ts:305-577 | the whole edit: refuses leaving the book as it was, or leaves the specified book |
| Reservations.ReservationsService.Swap | backend/src/modules/reservations/reservations.service.ts:640-689 | exchanges the places of two rows of one room and raises both versions, or refuses |
| Reservations.ReservationsService.RecordFact | backend/src/modules/reservations/reservations.service.ts:803-831 | the fact button |
| Reservations.ReservationsService.Cancel | backend/src/modules/reservations/reservations.service.ts:960-993 | cancels with a note, or refuses a partner's row and a closed one |
| IdempotentCreate.FindMeaning | backend/src/modules/reservations/reservations.service.ts:277-298 | the lookup by key tells no row, the row of the same body, or a row of another body |
| IdempotentCreate.StepKeepsInv | backend/src/modules/reservations/reservations.service.ts:138-152 | every step of any request keeps one row per key and, for a request past its second lookup, the key free under its lock |
| IdempotentCreate.RunKeepsInv | backend/src/modules/connectivity/connectivity.service.ts:585-743 | so does every interleaving of any number of requests |
| IdempotentCreate.ExactlyOnce | backend/src/modules/connectivity/connectivity.service.ts:585-743 | in every interleaving there is at most one reservation per hotel, partner and key, every success names it and was asked with its body, and the rejected code goes only to a request that stored nothing; `NewKeySucceeds` says that there is one |
| IdempotentCreate.CreationSucceeds | backend/src/modules/reservations/reservations.service.ts:138-247 | from any state with nothing stored under the key and its lock free, lock, second lookup, insert, commit and return store exactly the reservation, answer with it and give the lock back |
| IdempotentCreate.NewKeySucceeds | backend/src/modules/connectivity/connectivity.service.ts:585-709 | after every interleaving a new request under a key neither stored nor locked can go through from arrival to success |
| IdempotentCreate.StoredIsFound | backend/src/modules/reservations/reservations.service.ts:277-298 | either lookup answers the stored body with the reservation and refuses another body |
| IdempotentCreate.LocksAreHeld | backend/src/modules/reservations/reservations.service.ts:138-150 | in every interleaving a locked key is held by a request inside its transaction: none leaves its lock behind |
| IdempotentCreate.HandlerTells | backend/src/modules/connectivity/connectivity.service.ts:724-743 | the handler answers with the stored reservation or a conflict, else passes the failure on, marked rejected exactly by the creation or by a 400, 404 or 409 of the preflight |
| IdempotentCreate.RefusalIsTold | backend/src/modules/connectivity/connectivity.service.ts:734-743 | a refusal of the preflight or of the creation is told as certain, nothing else that goes wrong is |
| IdempotentCreate.LostAcknowledgement | backend/src/modules/connectivity/connectivity.service.ts:724-743 | a commit whose acknowledgement is lost is still answered with the reservation; a transaction rolled back is not told as rejected |
| IdempotentCreate.LateRequests | backend/src/modules/connectivity/connectivity.service.ts:724-743 | once the reservation is stored every request under its key that is still unanswered, wherever it is in its steps, can only be answered with it for the same body and with a conflict for another, short of its lookup failing, and is never told it was rejected |
| SessionRefresh.ResolveKeepsSession | frontend/src/api/session-refresh.js:105-119 | a reply continues the tab's session or stops the tab with its token in place, exactly when the reply is of another session |
| SessionRefresh.RenewedTokenIsTaken | frontend/src/api/session-refresh.js:106-119 | a renewed token of the tab's session is the tab's from then on when nothing happened meanwhile, and whatever is handed to those who wait is the token the tab has |
| SessionRefresh.RejectKeepsSession | frontend/src/api/session-refresh.js:120-132 | a failure signs out exactly a tab of the common cookie whose token is still the one it refreshed, stops a hotel's tab exactly on 401, and leaves a newer token alone |
| SessionRefresh.RetriedUnderSameSessionIff | frontend/src/api/session-refresh.js:139-155 | a refused request, whatever session it was sent under and whether it started the refresh or joined it, is repeated under that session if and only if the tab has it when the reply comes, or, in a tab without a token throughout, the reply is of it |
| SessionRefresh.RetriedElsewhere | frontend/src/api/session-refresh.js:107-112 | a link to another hotel opened meanwhile takes the repeated request with it |
| SessionRefresh.RetriedAfterSignIn | frontend/src/api/session-refresh.js:139-155 | a link opened before the refusal came back: the refresh is the new sign-in's and the old request is repeated under it |
| SessionRefresh.SessionRefresher.constructor | frontend/src/api/session-refresh.js:82-87 | a tab without a token, nothing in flight, not stopped |
| SessionRefresh.SessionRefresher.Stop | frontend/src/api/session-refresh.js:89-95 | remembers the token and the reason |
| SessionRefresh.SessionRefresher.Refresh | frontend/src/api/session-refresh.js:97-104 | refuses on the token it was stopped on, joins the refresh in flight, or starts one on the cookie path of its session |
| SessionRefresh.SessionRefresher.OnToken | frontend/src/api/session-refresh.js:106-119 | computes what `RenewedTokenIsTaken` and `ResolveKeepsSession` state about a granted refresh |
| SessionRefresh.SessionRefresher.OnFailure | frontend/src/api/session-refresh.js:120-135 | what a failed refresh does to the tab |
| SessionRefresh.SessionRefresher.OnAuthError | frontend/src/api/session-refresh.js:139-150 | only a first 401 that is no sign-in call, while refreshing is on, starts or joins a refresh; anything else leaves the tab as it was |
| SessionCookies.OnlyOwnCookie | backend/src/modules/auth/auth.controller.ts:28-36 | by path-match and name an endpoint reads the cookie of its own scope and no other |
| SessionProtocol.StepKeepsInv | backend/src/modules/auth/auth.controller.ts:120-199 | every step keeps cookies, replies under way and tabs consistent with the refresh rows |
| SessionProtocol.CookiesNameOwnRows | backend/src/modules/auth/auth.service.ts:250-330 | in every interleaving a hotel's cookie names a sign-in into that hotel, and the common cookie never names one |
| SessionProtocol.StepKeepsSession | frontend/src/api/session-refresh.js:82-137 | only the tab's own sign-in, sign-out or settled refresh changes its token, and for a signed-in tab the refresh keeps the session or drops the token |
| SessionProtocol.HotelTabKeepsSession | frontend/src/api/session-refresh.js:97-137 | in every interleaving a hotel's tab keeps its hotel, person and "on behalf of" until it signs in or out itself |
| SessionProtocol.TabKeepsSession | frontend/src/api/session-refresh.js:97-137 | so does every other signed-in tab, unless a refresh signed it out meanwhile |
| SessionProtocol.StoppedTabIsQuiet | frontend/src/api/session-refresh.js:84-99 | a stopped tab sends no refresh and stays as it is until it signs in or out itself |
| SessionProtocol.ReplyIsOfItsScope | backend/src/modules/auth/auth.service.ts:283-288 | the reply to a hotel's tab is for the same hotel on the person's own behalf, the reply to any other is on nobody's |
| SessionProtocol.DisplacedByAnotherPerson | frontend/src/api/session-refresh.js:116-116 | a hotel's tab is displaced only by another person signed in to the same hotel |
| SessionProtocol.ServeContinues | backend/src/modules/auth/auth.service.ts:293-330 | rotation revokes the cookie's row and continues its session |
| SessionProtocol.OneRefreshAtATime | frontend/src/api/session-refresh.js:97-105 | a refresh leaves with the cookie of its endpoint, and while one is under way, or the tab is stopped, another asks for nothing |
| SessionProtocol.GrantArrives | frontend/src/api/session-refresh.js:106-119 | in every state the arrival of a grant makes the jar name the granted row, and gives a tab of that session, unchanged meanwhile, the granted token |
| SessionProtocol.RefreshSucceeds | backend/src/modules/auth/auth.service.ts:250-330 | a refresh undisturbed from start to end revokes the row its cookie named, stores one for the same hotel, person and "on behalf of", and leaves the tab with its token and cookie, or stopped if the cookie was of another session |
| SessionProtocol.SignInSucceeds | backend/src/modules/auth/auth.controller.ts:120-199 | a sign-in that arrives gives the tab a token of the session its door stands for and its endpoint's cookie a live row of that session; the panel's way into a hotel leaves no cookie |
| SessionProtocol.SignOutSucceeds | backend/src/modules/auth/auth.service.ts:332-341 | a sign-out that arrives takes token and cookie and revokes the row the cookie named |
| SessionProtocol.OtherScopesUntouched | backend/src/modules/auth/auth.service.ts:242-288 | a refresh revokes no row and replaces no cookie of another hotel or of the common sign-in |
| SessionProtocol.RacingTabs | backend/src/modules/auth/auth.service.ts:277-296 | two tabs of one sign-in refreshing at once: the second is refused, and stopped or signed out |
| SessionProtocol.LiveUntilSpent | backend/src/modules/auth/auth.service.ts:277-296 | over every run a live row stays live exactly until a refresh rotates it, a sign-out takes it, or it is revoked, and a revoked one never comes back |
| SessionProtocol.GrantedIffUnspent | backend/src/modules/auth/auth.service.ts:277-296 | a refresh served after any events is granted if and only if it left with a live cookie, its people are active and none of those events used the cookie up |
| AuthService.AuthService.Login | backend/src/modules/auth/auth.service.ts:162-237 | a good password of an active person of an active hotel stores the row of the password door in the common cookie, anything else stores nothing |
| AuthService.AuthService.Refresh | backend/src/modules/auth/auth.service.ts:250-330 | the endpoint's branches compute the protocol's rotation, with the scope checked before anything is revoked |
| AuthService.AuthService.Logout | backend/src/modules/auth/auth.service.ts:332-341 | revokes the cookie's row and nothing else |
| AuthService.AuthService.ExchangeSsoCode | backend/src/modules/auth/auth.service.ts:645-712 | a code dies on first touch; it stores the row of its door, the hotel or the panel, with the cookie of that scope, exactly while valid and everyone is active |
| AuthService.AuthService.ExitImpersonation | backend/src/modules/auth/auth.service.ts:431-461 | gives the operator a sign-in of their own in the common cookie and leaves the hotel's row alone |
| AuthService.AuthService.DeactivateDispatcher | backend/src/modules/auth/auth.service.ts:733-752 | switches a dispatcher off with every refresh row they have; anyone else is left alone |
| AuthService.AuthService.CreateSsoCode | backend/src/modules/auth/auth.service.ts:577-636 | sweeps the codes that ran out, creates the dispatcher or switches them on, and stores a code of sixty seconds; an address that is no dispatcher's is refused |
| AuthService.AuthService.SweepCodes | backend/src/modules/auth/auth.service.ts:625-628 | the loop leaves exactly the codes that have not run out |
| AuthService.LoginIff | backend/src/modules/auth/auth.service.ts:178-192 | a sign-in succeeds if and only if the password is right and person and hotel are active; otherwise nothing changes |
| AuthService.RefreshIff | backend/src/modules/auth/auth.service.ts:250-330 | a refresh is granted if and only if the cookie's row is live and of the endpoint's scope, its person active and, in a hotel, the hotel open; the row is revoked and followed by one for the same hotel, person and "on behalf of" |
| AuthService.ExchangeIff | backend/src/modules/auth/auth.service.ts:659-712 | a code opens its door if and only if it is there, has not run out, its dispatcher is active and its hotel open, and is gone either way |
| AuthService.ExitIff | backend/src/modules/auth/auth.service.ts:431-461 | back from a hotel comes exactly an active person working there on somebody's behalf, as themselves |
| AuthService.IssueIff | backend/src/modules/auth/auth.service.ts:577-636 | a code is issued to anyone but a known person who is no dispatcher, who is created in the platform's tenant or switched on; other codes go only when they have run out |
| AuthService.DeactivationSpares | backend/src/modules/auth/auth.service.ts:733-745 | exactly the dispatcher and their rows are touched |
| AuthService.IssuedCodeOpensIff | backend/src/modules/auth/auth.service.ts:621-660 | a code not touched since it was issued opens, whatever other calls came between, exactly for sixty seconds while its dispatcher is not switched off and its hotel is open |
| AuthService.CodeOpensOnce | backend/src/modules/auth/auth.service.ts:656-658 | a code touched once opens nothing again until it is issued anew |
| AuthService.LetInIsSignIn | backend/src/modules/auth/auth.service.ts:859-919 | what the service stores and hands out when it lets someone in is what the sign-in step of the browser-and-server protocol stores and mails |
| AuthService.RowsMoveAlike | backend/src/modules/auth/auth.service.ts:250-341 | a refresh and a sign-out move the service's rows, and answer, as the protocol's steps do |
| AuthService.SwitchedOffUntilNewCode | backend/src/modules/auth/auth.service.ts:730-745 | in every state calls can reach, once a dispatcher is switched off no row under their name is live and no cookie of theirs is refreshed, in any hotel or the panel, over every later run of calls in which no new code is issued for them |
| AuthService.OldRowsNeverAgain | backend/src/modules/auth/auth.service.ts:733-745 | the rows they had at that moment are never refreshed again over any later calls at all |
| AuthService.OldRowsGrantNothing | backend/src/modules/auth/auth.service.ts:733-745 | nor over any later run of browsers, late replies and sign-ins |
| LoginThrottle.Throttle.constructor | backend/src/modules/auth/login-throttle.ts:28-29 | no counters |
| LoginThrottle.Throttle.AssertAllowed | backend/src/modules/auth/login-throttle.ts:32-41 | refuses exactly when a limit is reached, and the minutes it names are the fewest that outlast the counter's window |
| LoginThrottle.Throttle.Fail | backend/src/modules/auth/login-throttle.ts:44-53 | adds one under the address and the machine, opening windows where none is open, and returns the address's count |
| LoginThrottle.Throttle.Success | backend/src/modules/auth/login-throttle.ts:55-57 | forgets the address's counter only |
| LoginThrottle.Throttle.SignIn | backend/src/modules/auth/auth.service.ts:170-206 | admits exactly a good password under limits not reached; otherwise refuses or counts |
| LoginThrottle.SlidingWindowBound | backend/src/modules/auth/login-throttle.ts:12-57 | over every sequence of attempts any interval of the window's length holds at most 2·MAX − 1 counted failures of a machine, and of an address since its last successful sign-in |
| LoginThrottle.BoundIsReached | backend/src/modules/auth/login-throttle.ts:44-53 | the bound cannot be lowered for an address: ten failures around the end of a window put 2·MAX − 1 of them into one interval |
| LoginThrottle.MachineBoundIsReached | backend/src/modules/auth/login-throttle.ts:44-53 | nor for a machine: forty failures under addresses of their own put thirty-nine into one interval |
| LoginThrottle.LockedUntilWindowEnds | backend/src/modules/auth/login-throttle.ts:31-41 | once a limit is reached every attempt under the key is refused until its window ends |
| LoginThrottle.FreeAfterWindow | backend/src/modules/auth/login-throttle.ts:44-50 | when the window ends the key starts again from one |
| ContractSync.CollectIncoming | backend/src/modules/connectivity/connectivity.service.ts:1140-1140 | one document a key, the last one sent |
| ContractSync.ContractPrices.SyncContractPrices | backend/src/modules/connectivity/connectivity.service.ts:1128-1172 | deletes the stale rows, then overwrites or adds, in one transaction |
| ContractSync.ContractPrices.WriteIncoming | backend/src/modules/connectivity/connectivity.service.ts:1149-1169 | the loop overwrites the row a key had before the sync, or adds one |
| ContractSync.OthersUntouched | backend/src/modules/connectivity/connectivity.service.ts:1129-1139 | other hotels' and other partners' documents are untouched |
| ContractSync.SyncedIsSent | backend/src/modules/connectivity/connectivity.service.ts:1108-1173 | with one stored row per sent key the partner's documents are exactly the sent ones by key |
| ContractSync.SyncExactIff | backend/src/modules/connectivity/connectivity.service.ts:1121-1149 | the result is exactly the sent set if and only if no sent key was stored twice before |
| ContractSync.SheetsAsSent | backend/src/modules/connectivity/connectivity.service.ts:1118-1172 | an exact sync leaves every sheet sent (contract, amendment, service and first day), in its last version and whole, as the partner's own, and nothing else |
| ContractSync.TwoHoursWitness | backend/src/modules/connectivity/connectivity.service.ts:1118-1126 | a document put at two hours of its first day is stored twice within the unique index, and a sync that sends it leaves both rows |
| ContractSync.ResyncChangesNothing | backend/src/modules/connectivity/connectivity.service.ts:1108-1115 | sending the same set again changes no row |
| DirectorySync.PlanDirectorySync | backend/src/modules/partners/partner-directory.service.ts:10-24 | refuses exactly a set with one code twice after trimming; else plans what to write and what to switch off |
| DirectorySync.TrimMeaning | backend/src/modules/partners/partner-directory.service.ts:16-21 | trimming takes all spaces from both ends and nothing else |
| DirectorySync.PartnerDirectory.Sync | backend/src/modules/partners/partner-directory.service.ts:38-74 | a refused set changes nothing; an accepted one leaves the specified records |
| DirectorySync.SyncedMeaning | backend/src/modules/partners/partner-directory.service.ts:26-69 | exactly the sent codes are active, each with the name (trimmed) and number sent; the others keep their record switched off; none is lost or invented |
| DirectorySync.ResyncKeeps | backend/src/modules/partners/partner-directory.service.ts:38-69 | sending the same set again leaves every record as it is |

## Left out

- Pricing.QuoteStay: looks the season and standard price up by the plain rule instead of the resolver object; `RateResolution.BaselineResolver.Resolve` proves the two agree.
- SessionProtocol.StoppedTabIsQuiet: does not model reloading a page, after which a tab forgets that it was stopped and asks once more.
- SessionProtocol.HotelTabKeepsSession: does not model forged tokens; every token in a tab was signed by the server.
- IdempotentCreate.ExactlyOnce: does not model requests without a key, nor the unique index behind the lock; the lock alone is enough. Two keys that share a lock value only wait for each other.
- Rates.NoticeWhenPricesMove: does not model the filter that passes a notice on only for a tariff that has been reviewed, nor its delivery.
- ContractSync.SyncExactIff: does not model the table's unique index, on which such a sync may fail as a whole, nor the time a document was received.
- DirectorySync.PlanDirectorySync: trims spaces, tabs and line ends only.
- Availability.QuoteMembers: does not cover a departure before the arrival: the date library lists those days backwards, while the queries load no price for them.
- AuthService.SwitchedOffUntilNewCode: does not model switching a person on by hand in the user administration, nor roles, permissions and the audit log.
- Availability.CacheCoherence: does not cover the moment between the commit of an edit and the drop of the cache, nor the minimum price kept with availability.
- LoginThrottle.SlidingWindowBound: does not cover attempts that overlap in time; addresses are taken in lower case.
- Fingerprint.PricePartDecides: does not model two different sort keys that a locale compares as equal.
- Contact fields, source, total price, flight and arrival times of a reservation: plain overwrites.
- Race freedom of ordinary create and update: each transaction is one step.
- Inventory counters, restrictions, retention, archives, invites, meals, slugs, redaction and imports: single-filter or one-step facts.
- Controllers apart from cookies, validation, the user interface, web sockets and webhook delivery.
- Token signing, password hashing, hashing internals, row-level security and the databases themselves.

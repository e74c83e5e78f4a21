# Bank rewards aggregator — a verified model of its core

The application is a single-page React app. It collects credit-card
promotions ("offers") from Chinese banks, shows them in a filterable feed,
sums what is still to collect on the user's own banks, and keeps a small
registry of the user's cards. It also turns an AI analysis of a promotion
screenshot into a new stored offer. This project models the state logic
behind those screens in Dafny and proves what it promises.

- `types.dfy` (`Types`): the bank enumeration with its display names, the
  offer and card records, and the `Option`/`Response` wrappers. `Response`
  is the outcome of an awaited service call: `Delivered(value)` or
  `Failed(message)`.
- `seqs.dfy` (`Seqs`): `Keep`, JavaScript's order-preserving
  `Array.filter`, with `Subseq`, `Count` and the lemmas the other modules
  use about them.
- `sync_format.dfy` (`SyncFormat`): how every record returned by a sync is
  shaped before it is merged. This is done identically at start-up and by
  the feed's sync button.
- `offer_store.dfy` (`OfferStore`): the root component's state, a class
  `App` holding the offers and the cards. Its three replacements of the
  offer list are claim, the title-deduplicating sync merge, and prepending
  an analysed offer. Each is computed by a pure function.
- `offers_feed.dfy` (`OffersFeed`): the feed's visibility filter and the
  sync button (class `Feed`).
- `dashboard.dfy` (`Dashboard`): the dashboard aggregates:
  - the active offers;
  - the offers on the user's banks and the sum of their value;
  - the claimed count;
  - the four recommendations, user's banks first.
- `settings.dfy` (`Settings`): adding a card (only the length of the
  last-four input is checked) and removing cards by id (class
  `SettingsPanel`).
- `ai_analyzer.dfy` (`AIAnalyzer`):
  - the defaults applied to an analysis;
  - taking the base64 payload out of a data URL with `split(',')[1]`;
  - the two strings sent with a strategy request (class `Analyzer`).

Service answers, dates, clocks and random ids are parameters:
- an awaited service call is a `Response` argument;
- `today` is the current day number;
- `dayOf` is the date parser, where `None` stands for JavaScript's
  `Invalid Date`;
- `idOf(i)` or `id` is the id the source draws from `Math.random` or
  `Date.now`.

## Behaviour as coded

The model follows the code wherever the code and its prose description
could be read differently:
- The feed's `all` filter (and every other filter) keeps claimed offers.
  Only stored status `expired` and a past expiry date hide an offer.
- An expiry date that does not parse gives `Invalid Date`. That compares
  false with `<`, so the offer counts as not expired and is shown
  (`OffersFeed.UnparsableDateIsShown`).
- The dashboard's active, matched and recommended lists look only at the
  stored status. Unlike the feed, they apply no expiry check.
- The sync merge drops incoming offers whose title is already stored. It
  does not remove duplicates inside one batch
  (`OfferStore.MergeKeepsBatchDuplicates`).
- Adding an analysed offer checks no titles at all.
- Adding a card checks only that the input is four characters long. Digits
  are not required (`Settings.NonNumericSuffixAccepted`). Dafny counts
  Unicode characters where JavaScript's `length` counts UTF-16 code units;
  see `Settings.AddCard` under "## Left out".
- The records the code builds carry fields that the declared TypeScript
  interfaces do not list: `isNew` on synced offers, and `lastFour`/`nickname`
  on cards. The model carries them because the code sets and reads them. An
  analysed offer has no `isNew` (undefined, so false).

## Model

| member | source | states |
|---|---|---|
| Types.BankName | types.ts:2-27 | every bank of the enumeration has a four-character display name |
| Types.BankNameInjective | types.ts:2-27 | distinct banks have distinct display names, so comparing banks is comparing the enumeration's string values |
| SyncFormat.SyncDescription | App.tsx:29 | the description is the first step when there is one and it is non-empty, otherwise the details placeholder; it is never empty |
| SyncFormat.FormatSynced | App.tsx:25-31 | a synced record gets the drawn id, status active and the new flag, the derived description and no keyword, and keeps every field the service supplied (`ToRaw` gives the record back) |
| SyncFormat.FormatBatch | components/OffersFeed.tsx:40-46 | the batch has one offer per record, in order; offer i has id `idOf(i)`, is active, carries record i's fields and the description derived from record i's steps; every offer is flagged new and has no keyword |
| OfferStore.Claim | App.tsx:40-42 | same length; exactly the offers with the id become claimed, every other offer is unchanged |
| OfferStore.ClaimIdempotent | App.tsx:41 | claiming the same id twice gives the same list as claiming it once |
| OfferStore.Merge | App.tsx:44-50 | the old list is kept unchanged as the suffix; the prefix is a subsequence of the incoming batch holding exactly the incoming offers whose title is not yet stored; the length grows by their count |
| OfferStore.MergeCoversTitles | App.tsx:46-48 | the titles after a merge are exactly the old titles together with the incoming ones |
| OfferStore.MergeAgainAddsNothing | App.tsx:46-48 | merging a batch whose titles all occurred in the previous batch leaves the store unchanged |
| OfferStore.ResyncAddsNothing | App.tsx:22-36 | syncing the same service results a second time, with new random ids, adds nothing |
| OfferStore.MergeKeepsBatchDuplicates | App.tsx:46-47 | two new offers of one batch sharing a title are both added |
| OfferStore.MergeDropsKnownTitle | App.tsx:46-48 | an incoming offer whose title is stored is dropped while a fresh one is prepended |
| OfferStore.App.constructor | App.tsx:14-18 | the store starts with the given offers and the two initial cards |
| OfferStore.App.HandleClaim | App.tsx:40-42 | the new offer list is the claim of the old one |
| OfferStore.App.HandleSyncOffers | App.tsx:44-50 | the new offer list is the merge of the old one with the batch |
| OfferStore.App.AddOffer | App.tsx:52-54 | the offer is prepended without any check; the old list follows unchanged |
| OfferStore.App.AutoSync | App.tsx:22-36 | on success the formatted batch is merged; on failure the store is untouched |
| OffersFeed.OwnedBanks | components/OffersFeed.tsx:21 | a bank is in the set exactly when some card is of that bank |
| OffersFeed.PastExpiry | components/OffersFeed.tsx:28-31 | a date that does not parse never counts as past; a parsed one counts as past exactly when its day is before today |
| OffersFeed.FilteredOffers | components/OffersFeed.tsx:23-34 | the visible list is a subsequence of the store whose length is the number of stored offers passing the filter (so duplicates are all kept); no member is expired or past its date; under `matched` only owned banks appear; a category filter shows only its category; every live stored offer passing the category and ownership tests is shown |
| OffersFeed.FilterAllIsLive | components/OffersFeed.tsx:23-34 | under `all` the visible list is exactly the live offers in store order |
| OffersFeed.FilterMatchedIsOwnedLive | components/OffersFeed.tsx:24-25 | under `matched` the visible list is the `all` list narrowed to owned banks |
| OffersFeed.FilterCategoryIgnoresBank | components/OffersFeed.tsx:24-25 | a live cashback offer is shown under `Cashback` whatever its bank, and never under `Lottery` or `Coupon` |
| OffersFeed.UnparsableDateIsShown | components/OffersFeed.tsx:28-31 | an offer whose date does not parse and whose status is not expired is shown under `all` |
| OffersFeed.ClaimedStaysVisible | components/OffersFeed.tsx:33 | an active offer that is not past its date is still shown under `all` after it is claimed |
| OffersFeed.ScenarioSingleOffer | components/OffersFeed.tsx:23-34 | with the initial cards, a live ICBC lottery offer is shown under `matched` and hidden under `Cashback` |
| OffersFeed.Feed.constructor | components/OffersFeed.tsx:16-18 | the feed starts idle with the given time as the last update |
| OffersFeed.Feed.HandleSync | components/OffersFeed.tsx:36-56 | on success the store becomes the merge of the formatted batch and the time is refreshed; on failure neither changes; the busy flag ends down |
| Dashboard.ActiveOffers | components/Dashboard.tsx:23 | a subsequence of the store holding exactly its offers with status active, as many as there are active offers |
| Dashboard.MatchedOffers | components/Dashboard.tsx:26 | a subsequence of the active offers holding exactly the active offers on an owned bank, as many as there are of them |
| Dashboard.UnmatchedOffers | components/Dashboard.tsx:85 | a subsequence of the active offers holding exactly the active offers on banks with no card, as many as there are of them |
| Dashboard.FoldValue | components/Dashboard.tsx:27 | the left fold from `acc` equals `acc` plus the reference sum of the values |
| Dashboard.TotalValueBounds | components/Dashboard.tsx:27 | no offer is worth more than the sum it is part of |
| Dashboard.MatchedValue | components/Dashboard.tsx:27 | the value is the sum over the matched offers, 0 when there are none, and at least the value of each matched offer |
| Dashboard.ClaimedCount | components/Dashboard.tsx:29 | the count is the number of claimed offers and at most the store's size |
| Dashboard.Ranked | components/Dashboard.tsx:85 | the matched-then-unmatched list is a permutation of the active offers, so it holds as many offers as there are active offers |
| Dashboard.RankedIsStablePartition | components/Dashboard.tsx:85 | the ranking is a permutation of the active offers in which the matched and the unmatched offers each keep their store order |
| Dashboard.RankedMatchedFirst | components/Dashboard.tsx:85 | position k of the ranking is on an owned bank exactly when k is below the number of matched offers; each entry is an active stored offer |
| Dashboard.Recommended | components/Dashboard.tsx:85 | the recommendations are the first min(4, active count) entries of the ranking; no unmatched offer precedes a matched one; each is an active stored offer |
| Dashboard.ClaimRaisesClaimedCount | components/Dashboard.tsx:29 | a claim raises the claimed count by the number of unclaimed offers carrying that id |
| Dashboard.ClaimLeavesActive | components/Dashboard.tsx:23 | after a claim no active offer carries the claimed id |
| Settings.AddCard | components/Settings.tsx:14-24 | rejected exactly when the input is not four characters long; otherwise the old list with one card appended, with the chosen bank, the input and the default nickname |
| Settings.RemoveCard | components/Settings.tsx:26-28 | a subsequence of the cards holding exactly the cards whose id differs, as many as there are such cards |
| Settings.RemoveAbsentIsNoOp | components/Settings.tsx:27 | removing an id no card carries changes nothing |
| Settings.RemoveIdempotent | components/Settings.tsx:27 | removing twice is removing once |
| Settings.AddThenRemoveRestores | components/Settings.tsx:14-28 | adding a card under a fresh id and removing that id restores the list |
| Settings.NonNumericSuffixAccepted | components/Settings.tsx:15 | the input "12a4" is accepted and gives the nickname 招商银行新卡 for CMB |
| Settings.SettingsPanel.constructor | components/Settings.tsx:11-12 | the form starts with ICBC selected and an empty input |
| Settings.SettingsPanel.AddCardTo | components/Settings.tsx:14-24 | with a four-character input the card is appended and the input cleared; otherwise nothing changes; this agrees with `AddCard` |
| Settings.SettingsPanel.RemoveCardFrom | components/Settings.tsx:26-28 | the new card list is the old one without the id |
| AIAnalyzer.OrDefault | components/AIAnalyzer.tsx:28-35 | a present non-empty string is kept; a missing or empty one becomes the default |
| AIAnalyzer.OfferFromAnalysis | components/AIAnalyzer.tsx:26-36 | the offer is active and not new; title and expiry are never empty; every field is the analysed value or its fixed default (ICBC, 新发现福利, Lottery, 2024-12-31, 0, no steps); the description is the category or 福利 followed by " 活动" |
| AIAnalyzer.AnalysisFieldsKept | components/AIAnalyzer.tsx:26-36 | a complete analysis is taken over field by field; only the id, status, description, keyword and flag are the analyser's own |
| AIAnalyzer.EmptyAnalysisDefaults | components/AIAnalyzer.tsx:26-36 | an empty analysis gives the all-defaults offer |
| AIAnalyzer.MissingExpiryHiddenAfterDefault | components/AIAnalyzer.tsx:33 | once the default date has passed, an analysed offer without a date is hidden by every feed filter as soon as it is added |
| AIAnalyzer.Join | components/AIAnalyzer.tsx:108 | `join` of no parts is empty; otherwise the text starts with the first part |
| AIAnalyzer.JoinCons | components/AIAnalyzer.tsx:108 | joining a part in front of at least one more adds the part and the separator in front |
| AIAnalyzer.JoinExtendFirst | components/AIAnalyzer.tsx:55 | a character put in front of the first part ends up in front of the joined text |
| AIAnalyzer.Split | components/AIAnalyzer.tsx:55 | `split` gives at least one field, none holding the separator, and joining them with it gives the string back |
| AIAnalyzer.SplitNoSeparator | components/AIAnalyzer.tsx:55 | text without the separator splits into itself alone |
| AIAnalyzer.SplitFirstField | components/AIAnalyzer.tsx:55 | the text up to the first separator is the first field |
| AIAnalyzer.SplitJoin | components/AIAnalyzer.tsx:55 | splitting undoes joining when no part holds the separator |
| AIAnalyzer.Payload | components/AIAnalyzer.tsx:55 | there is a payload exactly when the URL holds a comma, and it holds no comma |
| AIAnalyzer.PayloadOfDataUrl | components/AIAnalyzer.tsx:97 | for `header,data` the payload is `data` |
| AIAnalyzer.PayloadStopsAtSecondComma | components/AIAnalyzer.tsx:55 | whatever follows a second comma is not part of the payload |
| AIAnalyzer.CardNames | components/AIAnalyzer.tsx:107 | one bank name per card, in card order |
| AIAnalyzer.Summaries | components/AIAnalyzer.tsx:108 | one `bank: title` summary per offer, in store order |
| AIAnalyzer.OfferTitles | components/AIAnalyzer.tsx:108 | the offer text is empty for an empty store and otherwise starts with the first offer's summary |
| AIAnalyzer.JoinAppend | components/AIAnalyzer.tsx:108 | joining one more part appends the separator and that part |
| AIAnalyzer.OfferTitlesAppend | components/AIAnalyzer.tsx:108 | one more offer at the end adds ", " and its summary at the end of the text |
| AIAnalyzer.Analyzer.constructor | components/AIAnalyzer.tsx:13-14 | the analyser starts idle with no strategy |
| AIAnalyzer.Analyzer.ProcessBase64 | components/AIAnalyzer.tsx:22-45 | on success the built offer is prepended to the store; on failure the store is unchanged; the busy flag ends down |
| AIAnalyzer.Analyzer.GenerateStrategy | components/AIAnalyzer.tsx:104-116 | the request carries the card bank names and the joined offer summaries; the strategy is replaced only by a delivered answer; the busy flag ends down |

## Left out

- The calls to the AI service (screenshot analysis, offer search, strategy) are not modelled. Their outcome is a `Response` parameter, and what the service does with its inputs is not part of this model.
- An analysis field the service returns as a string outside the bank or category enumeration passes through the source's type cast unchanged. The model carries only enumeration members, so it cannot express such a value.
- SyncFormat.RawOffer, SyncFormat.FormatBatch: the search service's schema declares `bank` and `category` as free strings (services/geminiService.ts:61-63), and its prompt names banks by abbreviation (工行, 招行), so a synced record can carry a value outside the enumerations; the object spread (App.tsx:26, components/OffersFeed.tsx:41) stores it as it is. An offer with such a bank never matches a user's card (components/OffersFeed.tsx:25, components/Dashboard.tsx:26): `matched` hides it and the dashboard ranks it among the unmatched offers. An offer with such a category is hidden by every category filter and shown only under `all` and `matched`. The model types both fields as the enumerations and does not represent such records.
- A synced record without a `steps` array makes `r.steps[0]` throw, which ends in the same catch as a failed call. The model folds this into the `Failed` case and gives every record a sequence of steps.
- Date parsing and the local time zone are represented by the `dayOf`/`today` parameters; `new Date` and `setHours` are not modelled.
- The random and time-based ids (`Math.random`, `Date.now`) are parameters. Their uniqueness is not modelled; where a property needs it, it is a precondition.
- estimatedValue is a natural number: NaN, fractions and negative values, and floating-point summation, are not modelled.
- The optional `type` field of a card is not modelled, since nothing in these screens reads it.
- The camera, the file reader, the clipboard, `alert` and `console` output, the service worker, layout and rendering (theme colours, the mock value history chart) are not modelled.
- The interleaving of asynchronous handlers is not modelled: each handler runs to completion against the state it started with.
- The preview image, camera-open, selected-offer and active-tab state are not modelled. The feed's selected filter is an argument rather than a field.
- The input's `maxLength=4` is a browser-side limit and is not modelled; the model applies the handler's own length test.
- Settings.AddCard, Settings.SettingsPanel.AddCardTo: `|lastFour|` counts Unicode characters, while `newCardLastFour.length` (components/Settings.tsx:15) counts UTF-16 code units. The two differ for characters outside the Basic Multilingual Plane: "😀😀" has length 4 in JavaScript and is accepted there, but it is two characters here and the model rejects it. UTF-16 code units, and lone surrogates in particular, are not representable as Dafny characters, so the model states the test on Unicode characters.
- What analysis the service returns for an undefined payload (a data URL without a comma) is not modelled; `Payload` reports it as `None`.

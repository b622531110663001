# Verified core of an AI gateway

A Dafny model of the stateful parts of a multi-provider AI gateway, with proofs over whole runs:
rotation and revocation of payment credentials, the guards around configuration changes, the in-memory
rate limiter, polling and billing of Midjourney jobs, synchronization of a channel's model list, management
of multi-key channels, price synchronization, the Ogg page scan, request-body accounting and quota rounding.

`dafny verify dfyconfig.toml` checks everything. Nothing was executed: the model is read off the source, and
the verifier is the only judge of it.

## Modules

| file | contents |
|---|---|
| `Text`, `Sequences`, `Numbers` | options and results, trimming, separated lists, subsequences, bytes, floats |
| `PaymentSettings`, `CredentialRotation`, `PreparedRotation`, `PaymentUpdates`, `PaymentConfiguration` | the settings, one credential's rotation, a whole prepared update, the update endpoint, the stored configuration |
| `RotationRuns`, `WebhookRuns`, `CredentialRevocation`, `RevocationExamples` | what every run of updates keeps, for paired credentials, for the Stripe webhook, and for revocation; requests on which it falls short |
| `RotationAcceptance`, `OptionEffects` | which requests are accepted and what they leave and revoke, on the fields; which option lands in which setting |
| `ConfigurationGuards`, `GuardFacts` | the check before the transaction against the check inside it; what they come to on the fields |
| `RateLimit` | the bucketed limiter against a plain log |
| `Midjourney`, `MidjourneyPass`, `MidjourneyRuns` | concurrent pollers over one row and its reservation; the grouping of one polling pass; interleaved passes |
| `ModelNames`, `UpstreamModels`, `UpstreamRuns` | ordered name lists, detecting and applying, runs |
| `ChannelKeys`, `MultiKey`, `MultiKeyRuns`, `StoredKeys`, `KeyStatus` | key text, the actions on a stored row, runs on the keys, when the stored row keeps step with them, the paged query |
| `PriceSelection`, `PriceDifferences` | cheapest-candidate selection, the difference report |
| `OggScanner` | the page scan and streams of pages |
| `BodyStorage`, `StorageCounters` | storage objects; counters under interleaving |
| `QuotaMath` | saturation and the twice-rounded charge |

Classes stand where the source updates objects in place (`Configuration`, `InMemoryRateLimiter`, `Database`,
`Copy`, `UpstreamModels.Channel`, `MultiKey.Channel`, `Reader`, `Stats`, `Storage`); their methods are proved
against functions on values, and the lemmas over runs are about those functions.

## Where the code and its description differ

- The check before the transaction counts canonical orders only, while the transaction also counts standalone
  legacy rows for a moved Epay endpoint, a removed Stripe host and a webhook replaced without overlap.
  `GuardsAgreeUpToLegacyRows` is the exact relation.
- A Stripe emergency with no webhook secret bound revokes the generation that stays current
  (`StripeEmergency`). A planned update that clears a verifiable webhook secret or changes the mode drops it
  without revoking it (`PlannedRequestLosesIff`); the guards let that through only when no Stripe order is
  unfinished (`PlannedLossLeavesNoOrders`).
- The revocation preview announces less than an emergency revokes when an expired previous pair is still
  stored, and for Stripe when an overlap predates recorded generations. `RevocationExamples` holds an accepted
  request for each of these.
- Limiter cleanup is invisible for a key exactly when its duration is at most the expiration plus one second.
- A Midjourney copy that lost the race and is handled again asks for the wrong bill; the ledger refuses it.
- A multi-key channel's keys are joined by line breaks after a deletion. A key that is empty, as a line of
  spaces becomes, or spans lines does not survive that: `BlankKeyLosesAStatus` is an input, and
  `ActionFollows`, `DeletionFollowsIff` and `RunsTrackIff` are the exact conditions.
- Deleting all automatically disabled keys when every key is one reports success, keeps the stored text
  (an empty text is not written) and enables every key.
- An added model spelled like a `regex:` ignore rule removes that rule.
- Within the tolerance of 1e-9 an earlier provider by name wins, although the selection is described as the
  cheapest. `CheapestIsChosenIff` says exactly when the cheapest is chosen.
- Sweeping the cache file of a body still open subtracts its size twice; `SweepKeepsExactIff` says exactly when a
  sweep leaves the counters right.

## Model

| member | source | states |
|---|---|---|
| `CredentialRotation.RotatePair` | controller/payment_settings.go:695-831 | For Epay and XORPay: refuses with the first error of the specification, and otherwise writes the values and revocations that take the credential to its specified successor (`PlannedPairRequest`, `PlannedPairStep` and `EmergencyPairStep` say which, on the fields) |
| `CredentialRotation.RotateStripe` | controller/payment_settings.go:615-693 | The same for the Stripe webhook secret, its overlap and its emergency revocations |
| `PreparedRotation.Prepare` | controller/payment_settings.go:610-877 | The whole preparation yields the specified values and revocations or the first error of its sections, in order |
| `PreparedRotation.DisableCurrentOnly` | controller/payment_settings.go:833-875 | Emergencies of Creem, Waffo and Waffo Pancake clear exactly their current credentials, or report nothing to disable |
| `PaymentConfiguration.Configuration.Update` | controller/payment_settings.go:204-485 | A request commits exactly when it is well formed, proposes something, names the stored version (a positive one, not the last), its preparation succeeds and no guard stands against the prepared values; it then makes the specified step with its revocations and raises the version. One that proposes nothing succeeds without a change, any other changes nothing |
| `PaymentConfiguration.CheckValues` | controller/payment_settings.go:440-475 | Preparation, the check before the transaction and the checks inside it let values through exactly when the rotation succeeds, no guard stands against the prepared values, and the version is the expected one and can be raised |
| `OptionEffects.WellFormedIff` | controller/payment_settings.go:204-312 | Exactly which requests get past the first checks, option by option and emergency by emergency |
| `OptionEffects.ProposesNothingIff` | controller/payment_settings.go:339-345 | Exactly which of them succeed without a transaction: nothing cleared or revoked, and only blank secrets sent |
| `OptionEffects.ServerOwnedIsRefused` | controller/payment_settings.go:95-112 | A request that names an option of the server's, or clears something other than a secret, changes nothing |
| `OptionEffects.GeneralOptions` | model/option.go:1128-1220 | After an accepted request the addresses and Stripe account options hold what was sent, trimmed; a cleared one is empty, any other and a secret sent blank is as before |
| `OptionEffects.CreemOptions` | model/option.go:1281-1288 | The same for Creem |
| `OptionEffects.WaffoAccountOptions` | model/option.go:1289-1310 | The same for the Waffo account |
| `OptionEffects.WaffoKeyOptions` | model/option.go:1291-1302 | The same for both sets of Waffo keys |
| `OptionEffects.PancakeOptions` | model/option.go:1323-1332 | The same for Waffo Pancake |
| `OptionEffects.PairOptions` | controller/payment_settings.go:695-831 | The same for the current pair of Epay and XORPay, in an emergency too |
| `OptionEffects.WebhookOption` | controller/payment_settings.go:615-693 | The same for the webhook secret; in an emergency one that is not sent is emptied |
| `OptionEffects.IdentityIsResolved` | controller/payment_settings.go:352-445 | Account and mode of the API credential change only to what the server resolved for a request that names a part of the checkout configuration |
| `OptionEffects.DisablingEmpties` | controller/payment_settings.go:833-875 | Disabling Creem, Waffo or Waffo Pancake empties exactly the credentials in use and turns Waffo off |
| `RotationAcceptance.AcceptedIff` | controller/payment_settings.go:610-877 | A request is accepted exactly when it is well formed and committed, comes at a positive time, each credential may move as asked, stated on the stored fields, and what it disables is there |
| `RotationAcceptance.PlannedPairRequest` | controller/payment_settings.go:709-746 | A well-formed planned change of one pair is accepted exactly when the generation is in 1..MaxInt64-1, no previous pair is active, a complete pair can be stored, and a new XORPay aid brings a new secret |
| `RotationAcceptance.PlannedPairStep` | controller/payment_settings.go:720-746 | It then holds the proposed pair under the next generation, and a complete replaced pair under its own for 30 days and 3 or 25 hours; a request that changes nothing leaves the credential |
| `RotationAcceptance.EmergencyPairStep` | controller/payment_settings.go:720-759 | An accepted emergency of a pair leaves the proposed pair and an empty previous slot, and revokes exactly a stored previous key and then a complete replaced pair |
| `RotationAcceptance.WebhookRequestStep` | controller/payment_settings.go:637-693 | What an accepted request leaves of the webhook: secret, generation, the mode of the API credential or none without a secret, and the replaced secret for a day exactly when planned in the same mode |
| `RotationAcceptance.StepRevokes` | controller/payment_settings.go:610-877 | Everything any other accepted request revokes, in order: nothing if planned, the bound and the running generation for Stripe, all active orders at once for a disabled provider |
| `RotationAcceptance.CommitKeepsOneMode` | controller/payment_settings.go:1020-1032 | Over every committed update a stored webhook secret keeps the mode of the API credential, by the mode guard and the rotation together |
| `PaymentConfiguration.RequestChangesOneCredential` | controller/payment_settings.go:114-164 | A request that changes one of the three rotated credentials leaves the other two unchanged |
| `RotationRuns.ReplacedPairIsHeld` | controller/payment_settings.go:695-746 | In a run without emergencies of the gateway and with a moving clock, a complete replaced pair stays the previous credential under its own generation until its replacement time plus the overlap, and no second rotation happens before |
| `RotationRuns.TraceHoldsReplaced` | controller/payment_settings.go:761-818 | The same on any trace of one credential, with the whole credential in between spelled out |
| `RotationRuns.GenerationNamesOnePair` | controller/payment_settings.go:709-746 | Over every run, emergencies included, a generation never names two different pairs |
| `RotationRuns.GenerationCountsChanges` | controller/payment_settings.go:781-818 | A request raises the generation by one exactly when it changes the pair, and stays within int64 |
| `WebhookRuns.RunPreservesInv` | controller/payment_settings.go:637-693 | Every state of a run keeps the invariant: the previous generation is below the current one, and an active previous secret implies a current one |
| `WebhookRuns.GenerationNamesOneSecret` | controller/payment_settings.go:637-670 | Over every run a webhook generation never names two different secrets, although an emptied slot's number is used for the next secret |
| `CredentialRevocation.NothingVerifiableIsLost` | controller/payment_settings.go:720-759 | After any Epay or XORPay request every generation that could verify still can or is revoked with it; the surviving generation is never revoked; planned requests revoke nothing; an emergency empties the previous slot |
| `CredentialRevocation.StripeEmergency` | controller/payment_settings.go:657-693 | A Stripe emergency revokes every verifiable generation and empties the previous slot; it revokes the surviving generation exactly when no secret was bound |
| `CredentialRevocation.StripeEmergencyRequest` | controller/payment_settings.go:622-693 | The same for a whole request, with exactly one Stripe revocation covering all active orders |
| `CredentialRevocation.PlannedWebhookLoss` | controller/payment_settings.go:637-656 | A planned update keeps every verifiable webhook generation exactly when it does not replace a verifiable secret by nothing or across modes |
| `PaymentConfiguration.PlannedRequestLosesIff` | controller/payment_settings.go:637-656 | Of a whole accepted planned request: a verifiable webhook generation is gone afterwards exactly when the request proposes another secret for a verifiable one and clears it or changes the mode |
| `PaymentConfiguration.PlannedLossLeavesNoOrders` | controller/payment_settings.go:549-608 | Such a loss passes the guards only when no Stripe order, canonical or legacy, is unfinished, and, when the secret is cleared, only when no account-bound history exists |
| `CredentialRevocation.PreviewPair` | controller/payment_limits.go:147-192 | The preview lists exactly the specified generations of a pair for the chosen mode |
| `CredentialRevocation.PreviewStripe` | controller/payment_limits.go:147-192 | The preview lists exactly the specified webhook generations |
| `CredentialRevocation.PairPreviewMatches` | controller/payment_limits.go:147-192 | The preview is a subset of what the emergency revokes, and equal exactly when no expired previous pair is stored and a complete replaced pair is not blank |
| `CredentialRevocation.StripePreviewMatches` | controller/payment_limits.go:147-192 | The Stripe preview is exact unless an active overlap has no recorded generation |
| `CredentialRevocation.StripePreviewExactInRun` | controller/payment_limits.go:147-192 | From a state with recorded overlaps, the preview is exact in every reachable state |
| `RevocationExamples.PlannedClearLosesAGeneration` | controller/payment_settings.go:637-656 | A concrete accepted request that clears a verifiable webhook secret with no revocation |
| `RevocationExamples.UnboundEmergencyRevokesTheSurvivor` | controller/payment_settings.go:657-693 | A concrete accepted Stripe emergency, with no secret bound, that revokes the generation that stays |
| `RevocationExamples.ExpiredPairIsNotPreviewed` | controller/payment_limits.go:147-192 | A concrete accepted Epay emergency that revokes an expired stored pair the preview does not list |
| `RevocationExamples.UnrecordedOverlapIsNotPreviewed` | controller/payment_limits.go:147-192 | A concrete accepted Stripe emergency that revokes two generations of which the preview lists one |
| `ConfigurationGuards.PreCheck` | controller/payment_settings.go:879-1034 | The verdict of the check before the transaction, exactly: allowed, refused for an order or history fact, unparsable hosts, or a mode change without a new webhook secret |
| `ConfigurationGuards.BuildPreconditions` | controller/payment_settings.go:549-608 | The preconditions handed to the transaction demand exactly the facts the change needs |
| `ConfigurationGuards.TransactionCheck` | model/option.go:710-790 | The transaction refuses exactly when a demanded fact fails, de-duplicated provider lists included |
| `ConfigurationGuards.PassesGuards` | controller/payment_settings.go:510-608 | A change passes the check and the transaction exactly when no canonical, legacy, history or mode fact stands against it (`AllowedIff` says which, field by field) |
| `ConfigurationGuards.GuardsAgreeUpToLegacyRows` | controller/payment_settings.go:879-1034 | On every snapshot the two guards agree except when only legacy rows stand against a moved endpoint, a removed host or a missing overlap |
| `ConfigurationGuards.LegacyRowsSplitTheGuards` | model/payment.go:884-930 | A concrete snapshot on which the transaction refuses what the earlier check lets through |
| `GuardFacts.AllowedIff` | controller/payment_settings.go:879-1034 | The two guards together, on the fields: each changed option of each provider and which orders, callbacks or history it needs to be absent, unless its provider is under emergency; exactly |
| `GuardFacts.RetainedFreeIff` | controller/payment_settings.go:510-547 | The callback origin and the retained options of Creem, Waffo and Waffo Pancake stand in the way exactly when one of them is changed outside an emergency and an order of the matching kind exists |
| `RateLimit.InMemoryRateLimiter.constructor` | common/rate-limit.go:25-33 | A new limiter has no windows |
| `RateLimit.InMemoryRateLimiter.Request` | common/rate-limit.go:52-107 | A request decides and updates the store as the specified step, for disabled policies too |
| `RateLimit.InMemoryRateLimiter.ClearExpiredItems` | common/rate-limit.go:35-49 | One cleanup round removes exactly the windows whose newest bucket is older than the expiration |
| `RateLimit.LimiterRefinesLog` | common/rate-limit.go:52-107 | For every key: every run of requests and cleanups over any keys decides this key's requests like a plain log of admission times, if the key's duration is at most the expiration plus one, or without cleanups for any duration |
| `RateLimit.AdmittedIff` | common/rate-limit.go:52-107 | After any run the next request of a key is admitted exactly when limit and duration are positive and fewer than the limit of its requests were admitted less than the duration ago |
| `RateLimit.LongDurationIsForgotten` | common/rate-limit.go:35-49 | For every longer duration a run exists in which a cleanup changes a decision |
| `RateLimit.LimiterBoundsEverySpan` | common/rate-limit.go:52-107 | Under the same condition on the key alone, no span of its duration ever holds more admissions than its limit |
| `RateLimit.RunKeepsStoreInv` | common/rate-limit.go:52-107 | Every run, whatever the policies, leaves only windows whose buckets are of the past, positive, strictly ordered, counted by the total, within the limit, and less than the duration apart |
| `RateLimit.WindowsStaySmall` | common/rate-limit.go:80-106 | In the store every run leaves, a window has its total equal to the sum of its counts and holds at most min(duration, limit) buckets |
| `RateLimit.SlideKeepsOrder` | common/rate-limit.go:84-93 | Sliding leaves exactly the active buckets, strictly ordered, with a total equal to their sum |
| `Midjourney.Database.UpdateWithStatus` | model/midjourney.go:193-199 | The conditional update writes the row exactly when the stored status is the expected one |
| `Midjourney.Database.Finalize` | model/midjourney_billing.go:374-465 | A refund of a failed job, and a settlement of a successful one with a quota in range and no other intent, close an open linked reservation; a missing or wrongly linked one, another quota or another intent changes nothing |
| `Midjourney.Copy.UpdateFromProvider` | controller/midjourney.go:167-252 | Handling an answer without interference leaves row, copy, reservation and bill as specified |
| `Midjourney.TerminalIsAbsorbing` | controller/midjourney.go:167-252 | Over every interleaving a terminal status and a finalized reservation never change again |
| `Midjourney.OneWinner` | controller/midjourney.go:200-252 | At most one step of a run moves the row into a terminal status |
| `Midjourney.LedgerMatchesStatus` | model/midjourney_billing.go:374-465 | A settlement happens only on success and a refund only on failure, and never both |
| `Midjourney.IssuedBill` | model/midjourney_billing.go:374-465 | The reservation after an issued bill, in every case, on the fields of row, bill and reservation |
| `MidjourneyRuns.WinnerCloses` | controller/midjourney.go:200-252 | Whatever the others do in between: when the poller that moved the row into a final status issues its bill, the reservation is settled with the reserved quota on success and refunded on failure |
| `Midjourney.AnswerIsStored` | controller/midjourney.go:167-252 | An answer is stored, field by field, exactly when the copy is not final, differs from it, has the stored status and no other settlement is intended |
| `Midjourney.WinnerBills` | controller/midjourney.go:200-252 | The winner plans the bill of the status it stored, and only a winner stores one |
| `Midjourney.WrongCallIff` | controller/midjourney.go:167-252 | Handling an answer plans a wrong bill exactly when the copy is terminal in memory and the row has another status |
| `Midjourney.FreshRunsCallCorrectly` | controller/midjourney.go:167-252 | When each copy is handled at most once, every planned bill matches the row throughout the run |
| `Midjourney.RepeatedAnswerCallsWrongly` | controller/midjourney.go:167-252 | A concrete run in which a losing copy plans a refund of a successful job, and the ledger leaves it alone |
| `MidjourneyPass.Group` | controller/midjourney.go:34-73 | Grouping puts every pollable job under its channel and upstream id, in order, each id once, and counts the deferred ones |
| `MidjourneyPass.MatchingIff` | controller/midjourney.go:49-73 | A job is polled under an id exactly when it is of that channel and non-empty id and its charge is nothing, linked or adopted |
| `MidjourneyPass.MatchingRises` | controller/midjourney.go:49-73 | Jobs with one id are handled in the order they were loaded in |
| `MidjourneyPass.DeferredCounts` | controller/midjourney.go:58-65 | The deferred number counts the billable jobs without an upstream id |
| `MidjourneyPass.EachCopyOnce` | controller/midjourney.go:150-159 | If each id is answered at most once, a pass handles every copy at most once |
| `MidjourneyRuns.PassIsFresh` | controller/midjourney.go:34-165 | A pass whose answers do not repeat an id handles the copy it loads at most once, also when it is cut short |
| `MidjourneyRuns.DistinctAnswersCallCorrectly` | controller/midjourney.go:34-252 | Several pollers make pass after pass, interleaved in any order, with lost races, failing transactions and lost passes: if no answer repeats an id, every billing call decided anywhere in the run is the one of the stored status |
| `ModelNames.Normalized` | controller/channel_upstream_update.go:93-98 | Normalizing yields trimmed, non-empty, duplicate-free names and leaves such a list unchanged |
| `ModelNames.NormalizeMembers` | controller/channel_upstream_update.go:93-98 | The members of a normalized list are the trimmed names except blank ones |
| `ModelNames.NormalizeAppends` | controller/channel_upstream_update.go:93-98 | Names keep the place of their first occurrence: names added at the end only append |
| `ModelNames.MergeModelNames` | controller/channel_upstream_update.go:100-114 | The loops with their seen set append exactly the names not yet contained, in order |
| `ModelNames.MergeIsNormal` | controller/channel_upstream_update.go:100-114 | A merged list is normal and contains exactly both lists' names |
| `ModelNames.SubtractIsNormal` | controller/channel_upstream_update.go:116-125 | Subtraction keeps exactly the other names |
| `ModelNames.IntersectIsNormal` | controller/channel_upstream_update.go:127-136 | Intersection keeps exactly the allowed names |
| `ModelNames.ApplySelectedOrder` | controller/channel_upstream_update.go:138-143 | Survivors keep their order and additions follow in theirs |
| `ModelNames.StoredListReadsBack` | model/channel.go:289-294 | A normal list reads back from its stored text exactly when no name contains a comma |
| `UpstreamModels.DetectIsNormal` | controller/channel_upstream_update.go:172-231 | Both reported lists are normal, and are the missing upstream names and the stale local ones |
| `UpstreamModels.DetectedIff` | controller/channel_upstream_update.go:172-231 | Who is reported, name by name: to add, listed upstream, not here, no redirect's target and ignored by no rule; to remove, here, not upstream and no redirect's source |
| `UpstreamModels.DetectedOrder` | controller/channel_upstream_update.go:172-231 | Both reports keep the order of the list they are taken from |
| `UpstreamModels.AutoMerge` | controller/channel_upstream_update.go:380-391 | Automatic synchronization appends every detected name, so the reported count is their number |
| `UpstreamModels.Channel.CheckUpstream` | controller/channel_upstream_update.go:356-403 | A check skips, fails or records as specified, and reports the number of names added automatically |
| `UpstreamModels.Channel.ApplyUpdates` | controller/channel_upstream_update.go:802-850 | A selection yields the specified state, the applied names and the remaining lists |
| `UpstreamRuns.AppliedSelection` | controller/channel_upstream_update.go:815-838 | A selection drops its removals, appends its additions, keeps all other models in place and takes exactly the selected names off the pending lists |
| `UpstreamRuns.SelectionAccountsForEveryName` | controller/channel_upstream_update.go:815-838 | Every pending name ends among the models, among the ignore rules or still pending, in exactly one of them |
| `UpstreamRuns.RunKeepsInv` | controller/channel_upstream_update.go:356-403 | Every run keeps: lists normal, detected names new and not literally ignored, names to remove present |
| `UpstreamRuns.ApplyKeepsSynced` | controller/channel_upstream_update.go:802-850 | Whatever is selected, the lists left pending are those a fresh detection would report |
| `UpstreamRuns.CheckSyncs` | controller/channel_upstream_update.go:356-403 | After a completed check, automatic or not, detecting again reports the stored lists |
| `UpstreamRuns.CheckRecords` | controller/channel_upstream_update.go:356-403 | What a check makes of models, offered names and names to remove, name by name, with the skipped, failed and automatic cases |
| `UpstreamRuns.PendingListsStayCurrent` | controller/channel_upstream_update.go:356-403 | Over every run of skipped, failed and completed checks and of selections, the pending lists equal a fresh detection against the last fetched list |
| `UpstreamRuns.ApplyingEverythingSettles` | controller/channel_upstream_update.go:802-850 | Detect, apply all, detect finds nothing exactly when no needed ignore rule shares its name with an addition |
| `UpstreamRuns.PlainNamesSettle` | controller/channel_upstream_update.go:172-231 | It always finds nothing when no upstream name contains a comma or starts like a pattern rule |
| `UpstreamRuns.PatternNamedModelUnsettles` | controller/channel_upstream_update.go:831-833 | A concrete model named like a pattern rule after which detection finds something again |
| `ChannelKeys.CountAgrees` | model/channel.go:526-552 | The stored number of keys is the number of keys exactly unless the text is an empty JSON array |
| `ChannelKeys.KeysReadBack` | model/channel.go:175-197 | Keys written one per line read back as they were exactly when none spans several lines and neither the first nor the last is empty, unless their text is a JSON array |
| `ChannelKeys.PlainKeysAreStorable` | model/channel.go:175-197 | Non-empty one-line keys that do not start like an array, padded ones included, read back whichever of them are left |
| `ChannelKeys.StorableKeysArePlain` | model/channel.go:175-197 | Conversely, keys that read back whichever of them are left are non-empty and span one line each, unless one is a JSON array by itself |
| `MultiKey.Channel.Update` | model/channel.go:526-573 | An empty key text keeps the stored one, the count is taken again, statuses beyond it are dropped |
| `StoredKeys.SavedRow` | model/channel.go:526-573 | What is stored, field by field |
| `MultiKey.Reindex` | controller/channel.go:1769-1801 | The loop leaves every other key with its status, time and reason, renumbered |
| `MultiKey.DropAutoDisabled` | controller/channel.go:1832-1871 | The loop leaves exactly the keys not disabled automatically, renumbered, and counts the others |
| `MultiKey.DisableEnabled` | controller/channel.go:1716-1729 | The loop disables exactly the enabled keys and counts them |
| `MultiKey.Channel.Manage` | controller/channel.go:1595-1898 | Every action on any stored row, valid or not, leaves the specified row and reply |
| `StoredKeys.ActionFollows` | controller/channel.go:1595-1898 | On a counted row every action leaves the count right, all indices in range and the keys with the order, statuses, times and reasons it means, exactly when it deletes nothing or the keys it leaves read back |
| `StoredKeys.ReplyFollows` | controller/channel.go:1595-1898 | The reply to every action is the one for the keys of the row |
| `StoredKeys.DeletionFollowsIff` | controller/channel.go:1751-1829 | Deleting a key keeps the others as they were exactly when those are one-line keys and neither the first nor the last of them is empty |
| `StoredKeys.RunsTrackIff` | controller/channel.go:1595-1898 | All sequences of actions keep the stored row in step with the keys they mean exactly when every proper part of the keys reads back |
| `StoredKeys.StoredBulkDeletion` | controller/channel.go:1831-1898 | On such a stored row bulk deletion shows the same as deleting one by one exactly when some key is not disabled automatically |
| `StoredKeys.BlankKeyLosesAStatus` | controller/channel.go:1769-1829 | A concrete text with a blank line on which deleting the first key enables an automatically disabled one and leaves a time beyond the keys |
| `MultiKeyRuns.BulkDeletionIsOneByOne` | controller/channel.go:1831-1898 | On the keys with their states: bulk deletion shows the same as deleting one by one from the highest index exactly when some key is not disabled automatically |
| `MultiKeyRuns.DeletingEveryKeyEnablesAll` | controller/channel.go:1880-1898 | When every key is disabled automatically, bulk deletion reports all deleted and enables all |
| `MultiKeyRuns.ActionOnOneKey` | controller/channel.go:1595-1679 | Enabling or disabling one key changes that key only, to status 1 without time and reason, or to status 2 with them |
| `MultiKeyRuns.ActionOnAllKeys` | controller/channel.go:1680-1749 | The same for all keys; disabling leaves keys already disabled as they are |
| `MultiKeyRuns.DeletionOfOneKey` | controller/channel.go:1751-1829 | Deleting leaves exactly the keys before and after the index; the last key and a missing index stay |
| `MultiKeyRuns.DisabledByHandStays` | controller/channel.go:1831-1898 | A key disabled by hand has status 2 and survives bulk deletion |
| `MultiKeyRuns.Replies` | controller/channel.go:1595-1898 | The reply to every action, from the number of keys of each status |
| `MultiKeyRuns.DeletionKeepsTheOthers` | controller/channel.go:1751-1829 | On the keys with their states: deleting a key leaves the others in order with status, time and reason |
| `MultiKeyRuns.BulkDeletionKeepsTheOthers` | controller/channel.go:1831-1898 | On the keys with their states: bulk deletion keeps the shown state of what it leaves exactly when some key is not disabled automatically |
| `MultiKeyRuns.RunKeepsKeys` | controller/channel.go:1595-1898 | On the keys with their states: no sequence of actions invents, duplicates or reorders keys, or deletes the last one |
| `KeyStatus.Query` | controller/channel.go:1481-1593 | Statistics over all keys, page and size defaults and clamping, and the right slice of the matching keys |
| `KeyStatus.RowShows` | controller/channel.go:1515-1545 | What a row shows of a key, from the three maps |
| `KeyStatus.PageShows` | controller/channel.go:1556-1577 | A page holds at most its size, and which row stands at each place |
| `KeyStatus.StatisticsCount` | controller/channel.go:1505-1545 | The statistics are the numbers of keys of each status |
| `KeyStatus.PagesShowEverything` | controller/channel.go:1556-1577 | The pages one after the other are the matching keys |
| `KeyStatus.NoPageIsEmpty` | controller/channel.go:1556-1577 | No page the query lands on is empty while some key matches |
| `KeyStatus.MatchingIsExact` | controller/channel.go:1544-1554 | The filter keeps exactly the keys with the wanted status |
| `PriceSelection.BuildCandidate` | controller/ratio_sync.go:838-879 | An entry is usable exactly when its input is finite and non-negative, its output if any too, and no output is paid on a free input; the candidate carries its numbers |
| `PriceSelection.ReplacesIff` | controller/ratio_sync.go:881-893 | A candidate replaces another exactly when it alone has a positive price, is at least 0.000000001 cheaper, or is as priced and named first |
| `PriceSelection.OfferModels` | controller/ratio_sync.go:923-943 | One provider's models, in any order, each replace the current choice exactly when they should |
| `PriceSelection.Select` | controller/ratio_sync.go:915-944 | The nested loops select for each model the fold of its candidates |
| `PriceSelection.BeforeIff` | controller/ratio_sync.go:881-893 | The order of provider names is by the first differing character, a proper prefix first |
| `PriceSelection.ChosenIsCheapest` | controller/ratio_sync.go:881-893 | Although near equality is not transitive, the choice is below every positive candidate plus the tolerance, and positive if any is |
| `PriceSelection.SelectedIsCheapest` | controller/ratio_sync.go:915-944 | The selected entry is one of the offers, below every positive offer plus 1e-9, and zero only when all usable offers are zero |
| `PriceSelection.SeparatedChoiceIsExact` | controller/ratio_sync.go:881-893 | Without near ties it is the cheapest positive price, from the first provider by name |
| `PriceSelection.CheapestIsChosenIff` | controller/ratio_sync.go:881-893 | The price chosen is the least positive one exactly when, on the arrival of its first offer, nothing positive within the tolerance above it had been chosen |
| `PriceSelection.NearTieIsNotCheapest` | controller/ratio_sync.go:881-893 | A concrete near tie in which a dearer candidate is chosen |
| `PriceDifferences.CollectModels` | controller/ratio_sync.go:542-556 | The compared models are those of the local tables and of every channel |
| `PriceDifferences.Judge` | controller/ratio_sync.go:558-591 | A channel's price for a model is distrusted exactly when it is 37.5 with a completion ratio of 1 |
| `PriceDifferences.CompareCell` | controller/ratio_sync.go:605-628 | One channel's entry, its presence and whether it differs |
| `PriceDifferences.ChannelsWithDifference` | controller/ratio_sync.go:656-665 | The channels with a value that is neither missing nor equal, anywhere in the report |
| `PriceDifferences.Prune` | controller/ratio_sync.go:667-693 | Pruning keeps exactly the items with something left to show, cut down to those channels, and no empty row |
| `PriceDifferences.BuildDifferences` | controller/ratio_sync.go:536-696 | The whole report: which items it holds and what each of them holds |
| `PriceDifferences.ReportIsExact` | controller/ratio_sync.go:593-654 | A model and field are reported exactly when some channel has a value there and no local value or a different one: another text, a number at least 0.000000001 apart, or a text against a number |
| `PriceDifferences.ReportedValues` | controller/ratio_sync.go:593-654 | What a reported item shows: the local value, each channel's value where it differs, the equality mark or nothing elsewhere, and distrust of 37.5 with 1 |
| `PriceDifferences.ReportNamesDifferingChannels` | controller/ratio_sync.go:656-693 | A reported item names exactly the channels that differ anywhere |
| `PriceDifferences.MarkerValueIsHidden` | controller/ratio_sync.go:605-628 | A concrete value spelled like the equality marker that is not reported |
| `OggScanner.LargestGranuleOf` | common/audio.go:196-254 | The read and seek loop ends on every input and returns the largest granule position of the visited pages, or 0 |
| `OggScanner.VisitsAreOrderedPages` | common/audio.go:207-247 | Visited positions carry the capture pattern and rise by at least a header |
| `OggScanner.NoPageIsMissed` | common/audio.go:207-247 | On every byte sequence, a capture pattern with room for a header is visited unless it lies inside a visited page |
| `OggScanner.PageReadsBack` | common/audio.go:219-247 | An encoded page is recognized, spans its own length and yields its signed granule position |
| `OggScanner.StreamIsScannedExactly` | common/audio.go:196-254 | On well-formed pages between bytes without the pattern, exactly the page starts are visited and the result is the largest granule position, or 0 |
| `OggScanner.LargestIsLargest` | common/audio.go:207-254 | That largest position is at least 0 and every page's, and is 0 or some page's |
| `BodyStorage.Storage.Read` | common/body_storage.go:47-54 | Reads the next bytes, or reports a closed storage and moves nothing |
| `BodyStorage.Storage.Bytes` | common/body_storage.go:198-230 | The whole contents, with the read position as before |
| `BodyStorage.Storage.Close` | common/body_storage.go:187-196 | The first call gives back the counted size, later ones change nothing |
| `BodyStorage.Stats.Decrement` | common/disk_cache_config.go:115-134 | One body and its size less, with the disk counters stopping at zero |
| `BodyStorage.Create` | common/body_storage.go:241-259 | Disk exactly when enabled, large enough, within the limit and working; contents and counters follow |
| `BodyStorage.CreateFromReader` | common/body_storage.go:262-302 | A body within the limit is stored whole, a longer one refused; disk exactly when the announced or the real size qualifies; a failing disk is an error only for the announced one; failures leave the counters alone |
| `StorageCounters.CountersAreExact` | common/disk_cache_config.go:109-134 | In every interleaving of creations and closings, with each atomic operation its own step, all counters equal what is open and no reset is due |
| `StorageCounters.RestingCounters` | common/disk_cache_config.go:109-134 | Whenever nobody is between two operations, the counters are the number and total size of the open bodies on disk and in memory |
| `StorageCounters.CountersAreBounded` | common/disk_cache.go:109-138 | With sweeps too, disk counters never exceed what is open and are negative only between an addition and its reset |
| `StorageCounters.UsageIsBetween` | common/disk_cache.go:109-138 | With no reset under way the usage lies between zero and the size of the open disk bodies |
| `StorageCounters.SubtractedOnce` | common/body_storage.go:65-72 | However often a body is closed, its size is subtracted at most once, and exactly once when closing is done |
| `StorageCounters.SweepKeepsExactIff` | common/disk_cache.go:109-138 | From exact counters a sweep leaves them exact exactly when no disk body was open and, unless the file was empty, no bytes were counted |
| `StorageCounters.SweptBodyIsSubtractedTwice` | common/disk_cache.go:129-135 | A concrete interleaving from the initial state in which a swept open body makes the usage too small |
| `QuotaMath.Saturate` | common/quota_math.go:60-77 | Always within int32; unclamped exactly for finite values strictly inside, and then the value with its fraction cut off; each kind of clamp exactly in its case, with its bound, and 0 for NaN |
| `QuotaMath.RoundedIsClamped` | common/quota_math.go:94-103 | Rounding with saturation is rounding cut off at the bounds |
| `QuotaMath.ConversionsAreMonotone` | common/quota_math.go:79-103 | Both conversions preserve order |
| `QuotaMath.SettleTestQuota` | controller/channel-test.go:541-553 | The settled quota is the specified charge or the saturated fixed price |
| `QuotaMath.ChargeIsMonotone` | controller/channel-test.go:542-550 | More prompt or completion tokens never cost less |
| `QuotaMath.ChargeIsInRange` | controller/channel-test.go:542-550 | The charge is within [0, MaxInt32] and positive exactly when the ratio is not zero |
| `QuotaMath.ChargeInFull` | controller/channel-test.go:542-550 | The charge in every case: both roundings stop at MaxInt32, and one that comes to nothing is raised to 1 unless the model is free |
| `QuotaMath.ChargeIsAccurate` | controller/channel-test.go:542-550 | When nothing is clamped or raised, the charge is within half the ratio plus one half of (prompt + completion * completionRatio) * modelRatio |
| `QuotaMath.AccuracyIsTight` | controller/channel-test.go:542-550 | That bound is attained |

## Left out

- HTTP handlers, JSON binding, audit records, translations, caches and abilities: plumbing around the modelled state.
- Validation of individual payment option values (`validatePaymentSettingValue` and the sandbox and Pancake checks) and signature verification: they only accept or reject before the modelled step.
- Database failures other than those named as parameters, and rows changed by code outside the modelled endpoints.
- One clock reading per payment request; the source reads the clock again inside the transaction.
- Overflow of an expiry time at the end of int64, and decimal formatting of stored integers.
- Order counting: a snapshot holds which providers have canonical, legacy and callback-dependent orders, not how many.
- Normalizing a sent list of Stripe hosts: the model starts from the normalized text.
- Parsing of Stripe host lists, JSON documents and regular expressions: parameters of the model.
- Normalizing a channel's model mapping: the model starts from the normalized mapping.
- Float rounding: prices, ratios and quotas are exact reals, with NaN and the infinities kept apart.
- Sorting of provider names: the model starts from names in order, which is what sorting provides.
- Conversion of selected prices into ratio tables, and the OpenRouter conversion: single formulas per entry.
- Tiered billing in `settleTestQuota`: the expression engine is a separate component.
- Integer overflow for page sizes near the end of int64 in the key status query; key previews are cut by character, not by byte.
- Opus playback time: only the granule maximum is modelled, not the pre-skip of section 4.2 of RFC 7845.
- Reads that return fewer bytes than available: the reader model delivers what is there.
- Seeking a stored body relative to its position or end; only absolute seeks are modelled.
- The check of free cache space and the following creation are one step in `BodyStorage`; `StorageCounters` has no limit, so what concurrent creations can add beyond the limit is not stated.
- Adoption of a legacy Midjourney charge while another poller works: a run keeps the link it starts with.
- MidjourneyRuns.DistinctAnswersCallCorrectly: says nothing of answers that repeat an id; `WrongCallIff` is the exact condition for a single call, and `RepeatedAnswerCallsWrongly` an input.
- StoredKeys.DeletionFollowsIff: needs a text of the remaining keys that is not itself a JSON array; `ActionFollows` is the condition without that.
- ChannelKeys.KeysReadBack: the same, and at least one key; an array text reads back as its elements.
- StoredKeys.StoredBulkDeletion: needs keys of which every proper part reads back; `RunsTrackIff` is the exact condition.
- UpstreamRuns.RunKeepsInv: needs fetched names without commas, because a stored list with one does not read back (`StoredListReadsBack` is the exact condition).
- UpstreamRuns.PendingListsStayCurrent: needs names that do not start with `regex:`; the exact condition is given for applying everything (`ApplyingEverythingSettles`).
- PriceDifferences.ReportIsExact: needs unique channel names, no JSON nulls and no value spelled like the equality marker; `MarkerValueIsHidden` shows why.

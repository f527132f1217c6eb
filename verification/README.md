# Verified model of the w4gns-logger core

w4gns-logger is a terminal logging program for amateur-radio contacts. This project models its most intricate
parts in Dafny and proves what their documentation and tests promise:

- **QSO-party scoring** (`PartyRules`, `PartyCredits`, `PartyTally`, `PartyScore`, `PartyTheorems`, `PartyLimits`,
  `PartyLive`, `PartyCabrillo`): exchange grammar, county-line credits, credit keys, multipliers, bonuses and caps; the score is a
  monotone function of the set of credit keys, and the live checks and the Cabrillo lines agree with it. `PartyReading`,
  `PartyValues` and `PartySubmission` tell exchanges, scores and lines from the contacts and the rules alone.
- **The contest index** (`Contest`, `ContestCount`, `ContestPoints`, `ContestIndex`): the mutable index refines the
  plain log, and the advance NEW MULT predictor is exact. `ContestMeaning` tells what one contact is worth and brings.
- **The upload outbox** (`Outbox`, `OutboxProtocol`): table transactions as methods, and a protocol of any number of
  sessions, clocks, crashes, edits and retries over them. `OutboxMeaning` tells what each step writes, row by row, and
  `OutboxWaits` that a failed row waits out its delay over every run.
- **ADIF** (`AdiReader`, `Adif`, `AdifFields`, `AdifQso`, `AdifRoundTrip`, `AdifImport`): streaming parser, exporter,
  their round trip, and a batch importer whose batching is invisible. `RecordFields`, `AdifReading`, `AdifWriting` and `ImportMeaning`
  tell from named fields which contact a record describes and is written from, and from contacts which ones an import adds.
- **LoTW confirmations** (`LotwReport`, `Confirmations`, `ConfirmationSync`): the report parsers, rejection of cut
  responses, matching, and links that stay true over every run. `LotwReading` reads back every response written field by field,
  `SyncMeaning` tells what a sync writes and which contact each confirmation is linked to.
- **Lookups and connections** (`Dxcc`, `GeoCache`, `Cluster`): the bucketed prefix lookup, the bounded location cache
  and the generation-guarded reconnect protocol.

Specification functions carry the proofs over loops and runs; the modules named last in each part restate their results on
contacts, rules and rows, without those functions, as equivalences or value by value.

`Text` and `Clock` hold the ASCII text functions and the calendar all parts share; `TextMeaning` tells what the text functions do. Objects whose methods update
their fields are classes; loops over maps pick keys in an arbitrary order; clocks, remote answers and failures are
parameters. `dafny verify dfyconfig.toml` checks everything.

Some things the proofs brought out:

- The predictor and the counter of multipliers read the scope of a rule differently. They agree for "band" and
  "contest" on every kind. For "band_weighted", `iaru_zone` is predicted per contest and `dxcc_or_wae` per band,
  and the other weighted kinds are predicted as new on bands that carry no bonus, where nothing is gained.
  `ContestCount.Agrees` is the exact condition and `ContestCount.AgreementIsExact` proves it, with a log for
  each disagreement.
- Party scores are a function of the set of credit keys for all but two kinds of catalog: dx and dxcc multipliers listed
  together while "DX" is readable, or an alias that is readable and stands for a county's code. `PartyCredits.Unambiguous`
  is the condition and `PartyLimits.KeysDecideExactly` shows that it is exact; `PartyLimits.DxAndDxccScores` and
  `PartyLimits.AliasTargetScores` give logs with equal keys and different scores.
- Blanks around a call are harmless for scores exactly when the event has no bonus points (`PartyLimits.PaddedExactly`):
  a blank before the bonus call loses the bonus under the same key (`PartyLimits.BlankCallConfuses`). The theorems ask for
  `PartyTheorems.BonusCalls`. The live duplicate check compares calls with their blanks and can pass over a prior contact
  (`PartyLimits.PaddedPriorMissed`). Country names must not hold the key separator (`PartyCredits.PlainNames`), which the
  country file meets. `PartyTheorems.SoundSettings` shows that all can hold.
- The score of a station on the QSO-only list shows one multiplier from its first credit on, while the new-multiplier
  flag keeps being raised: `PartyLive.QsoOnlyFlag` says exactly when the two agree, and `PartyLimits.QsoOnlyConfuses` gives
  contacts where they do not. Against the count before that rule the flag is right for every station.
- In an event with maritime multipliers a county code such as "R1" or "1" is read as a region. Scores still follow the keys,
  but credits of a county line that names such a county can be lost when expanded again, and "1" and "R1" on one line
  share a key. `PartyLimits.ExpandExactly` and `PartyLimits.KeysApartExactly` say exactly when.
- For a mobile entry the new-multiplier flag can part from the score: operated counties fill the cap, are replaced by the
  keys of the contact, or are completed by it. `PartyLive.FlagIsRight` is the exact condition.
- A confirmation in the last half hour of year 9999 is linked to nothing: the end of its window has one digit more and
  sorts first (`Confirmations.WindowAtTheEnd`).
- Keys of the contest index join call and band with a separator; results that split keys again ask that no band
  holds it (`ContestPoints.PlainBands`).
- A confirmation report passes over fields with a type suffix and leaves their value in the stream, as the code does.

## Model
| member | source | states |
|---|---|---|
| PartyRules.ReadCounties | cmd/w4gns-logger/qso_party_rules.go:156-173 | the county loop yields the codes of all parts when each is a county and none repeats, and nothing otherwise |
| PartyRules.ParseExchange | cmd/w4gns-logger/qso_party_rules.go:124-209 | the streaming parse of serial, name and location agrees with the grammar of party exchanges, error cases included |
| PartyRules.ExpandPairs | cmd/w4gns-logger/qso_party_rules.go:263-277 | the nested loops produce the product of home and away locations, homes outermost |
| PartyRules.ExpandCredits | cmd/w4gns-logger/qso_party_rules.go:245-279 | a contact on an event band and mode with a county on either side expands; any other readable contact gives no credit; a bad exchange is an error |
| PartyCredits.CreditsCountAndKeys | cmd/w4gns-logger/qso_party_rules.go:236-296 | the credits of a contact are exactly home times away, none when neither side is a county or band or mode is wrong, and their keys are pairwise distinct when no county line can name two counties that read as one region |
| PartyCredits.CreditExpands | cmd/w4gns-logger/qso_party_rules.go:245-279 | a credit expands to itself as long as one of its locations still reads as a county, and to nothing otherwise |
| PartyCredits.CreditExpandsToItself | cmd/w4gns-logger/qso_party_rules.go:245-279 | expanding a credit gives that credit alone, when no county line can name a county that reads as a maritime region |
| PartyCredits.MultipliersFromKey | cmd/w4gns-logger/qso_party_rules.go:281-354 | multiplier keys and sent counties of a credit are a function of its credit key and band |
| PartyCredits.SameKeySameCredit | cmd/w4gns-logger/qso_party_rules.go:281-354 | equal credit keys give equal calls, bands, sent counties and multiplier keys |
| PartyTally.MobilePass | cmd/w4gns-logger/qso_party_rules.go:393-413 | the pass over the county map, in any iteration order, turns the same counties into operated multipliers and counts the same bonuses |
| PartyTally.TallyMeans | cmd/w4gns-logger/qso_party_rules.go:356-426 | what the one-pass tally holds: the sets of keys, multipliers and bonus bands of all credits, points per distinct key, and contacts per county over distinct keys |
| PartyTally.SameKeysSameTally | cmd/w4gns-logger/qso_party_rules.go:356-426 | two credit lists with the same key set have the same tally |
| PartyTally.TotalGrows | cmd/w4gns-logger/cabrillo_export.go:262-268 | a larger tally never has a smaller total: under the cap, the power factor, and when an operated multiplier becomes a county multiplier |
| PartyScore.PartyScore | cmd/w4gns-logger/qso_party_rules.go:356-426 | the scorer, with its maps and its arbitrary map order, computes the score defined on the credits of the log |
| PartyTheorems.ScoreDependsOnKeys | cmd/w4gns-logger/qso_party_rules.go:281-426 | two logs of one station that earn the same set of credit keys have the same points, multipliers, bonus and factor, when the event has no bonus or its calls are logged without blanks |
| PartyTheorems.ReorderingAndRepeats | cmd/w4gns-logger/qso_party_rules.go:356-426 | reordering a log or repeating any of its contacts leaves the whole score unchanged |
| PartyTheorems.MoreKeysNoLess | cmd/w4gns-logger/qso_party_rules.go:356-426 | a log that earns at least the keys of another of the same station claims at least its total |
| PartyTheorems.AddingNeverLowers | cmd/w4gns-logger/qso_party_rules.go:356-418 | inserting any contact anywhere in the log of one station, on the QSO-only list or not, never lowers the claimed total |
| PartyTheorems.ExpansionKeepsScore | cmd/w4gns-logger/qso_party_rules.go:124-279 | replacing a contact by its county-line credits leaves the credits of the log and its score unchanged |
| PartyLive.IsPartyDupe | cmd/w4gns-logger/qso_party_rules.go:463-497 | the live check computes: the candidate has credits and every one of their keys was earned by a considered prior contact in the same call and band slot |
| PartyLive.DupeAgrees | cmd/w4gns-logger/qso_party_rules.go:356-497 | without /X priors and with one spelling of its call an in-period candidate of any station is flagged as a duplicate exactly when it has credits and scoring it adds no points |
| PartyLive.PartyNewMultiplier | cmd/w4gns-logger/qso_party_rules.go:428-461 | the live flags computed over the log: some own multiplier unseen and the cap not reached, or some own multiplier seen |
| PartyLive.NewMultiplierAgrees | cmd/w4gns-logger/qso_party_rules.go:393-461 | the fresh flag is up exactly when the candidate raises the capped multiplier count as it stands before the QSO-only rule, for every log of every station and every entry in which operated counties do not count |
| PartyLive.NewMultiplierExactly | cmd/w4gns-logger/qso_party_rules.go:393-461 | where operated counties count, the flag agrees with that count if and only if the contact does not bring a county without a key to the minimum below the cap, nor only replace operated counties, nor meet a cap filled by them |
| PartyLive.PlainStationScore | cmd/w4gns-logger/qso_party_rules.go:356-426 | the score of a station that is not on the QSO-only list shows that count |
| PartyLive.QsoOnlyFlag | cmd/w4gns-logger/qso_party_rules.go:419-461 | for a station on the QSO-only list the flag agrees with the score, once the log holds a credit, if and only if no unseen key is left below the cap; before that, if and only if the contact has a key of its own exactly when it has a credit |
| PartyTheorems.SoundSettings | cmd/w4gns-logger/qso_party_rules.go:55-115 | the conditions the theorems ask for can all be met at once, by an event that passes the checks of the loader |
| PartyCredits.CountyLocation | cmd/w4gns-logger/qso_party_rules.go:124-209 | a county code sent alone is read back as that county exactly when it is not taken for a maritime region first, and as that region otherwise |
| PartyLimits.KeysDecideExactly | cmd/w4gns-logger/qso_party_rules.go:281-354 | for an event with a band and a county that can be sent alone, equal keys mean equal calls, bands, sent counties and multipliers in every country data if and only if the settings are unambiguous |
| PartyLimits.DxAndDxccConfuse | cmd/w4gns-logger/qso_party_rules.go:281-354 | with dx and dxcc multipliers both listed, two contacts alike but for DX against the country prefix have one credit key and two multipliers against one |
| PartyLimits.DxAndDxccScores | cmd/w4gns-logger/qso_party_rules.go:356-426 | the two one-contact logs of these contacts earn the same keys, and the same score only if the multiplier cap is one |
| PartyLimits.AliasTargetConfuses | cmd/w4gns-logger/qso_party_rules.go:124-209 | with an alias whose target is also a county, two contacts sent from the county and from the alias have one credit key, but only the first counts as sent from the county |
| PartyLimits.AliasTargetScores | cmd/w4gns-logger/qso_party_rules.go:356-426 | the two one-contact logs of these contacts earn the same keys, but a mobile entry gets the county bonus only from the first |
| PartyLimits.BlankCallConfuses | cmd/w4gns-logger/qso_party_rules.go:281-387 | a blank before the bonus call leaves the credit key alone and loses the bonus |
| PartyLimits.PaddedExactly | cmd/w4gns-logger/qso_party_rules.go:281-426 | for unambiguous settings, blanks around calls leave the score a function of the credit keys if and only if the event has no bonus points |
| PartyLimits.PaddedPriorMissed | cmd/w4gns-logger/qso_party_rules.go:463-497 | a prior contact under a padded call earned the key of the candidate, but the live check passes over it |
| PartyLimits.QsoOnlyConfuses | cmd/w4gns-logger/qso_party_rules.go:419-461 | a second county raises the flag of a station on the QSO-only list and leaves its score at one multiplier |
| PartyLimits.ExpandExactly | cmd/w4gns-logger/qso_party_rules.go:245-279 | for an event with a band, all credits expand to themselves if and only if no county line can name a county that reads as a region |
| PartyLimits.RegionCreditLost | cmd/w4gns-logger/qso_party_rules.go:124-279 | a credit between two such counties expands to nothing |
| PartyLimits.KeysApartExactly | cmd/w4gns-logger/qso_party_rules.go:236-296 | for an event with a band, the credits of every contact have different keys if and only if no county line can name two counties that read as one region |
| PartyCabrillo.Submits | cmd/w4gns-logger/contest_validation.go:24-51 | the checks of one contact before export: band, readable exchanges, operating period, mode and reports |
| PartyCabrillo.SubmissionLocation | cmd/w4gns-logger/qso_party_rules.go:516-541 | the header loop finds a location exactly when all contacts may be submitted and were all sent from counties, or all from one place outside; it is the state, or that place |
| PartyCabrillo.ExportLines | cmd/w4gns-logger/cabrillo_export.go:330-358 | the export loop writes one line per credit, one X-QSO line for a contact without credits, and stops at a contact that fails a check or whose columns cannot be rendered |
| PartyCabrillo.LinesAreCredits | cmd/w4gns-logger/cabrillo_export.go:330-358 | in every finished export the QSO: lines are exactly the credits the scorer tallied, in order |
| PartyCabrillo.EveryContactHasALine | cmd/w4gns-logger/cabrillo_export.go:330-358 | a finished export holds at least one line per contact |
| Contest.BandOfKeyText | cmd/w4gns-logger/contest_state.go:788-793 | splitting a CALL|BAND key at its last separator gives the band back if and only if the band holds no separator |
| Contest.CreditedIffFirst | cmd/w4gns-logger/contest_state.go:411-431 | the counted contacts are exactly those whose slot (call and band, or call alone) no earlier eligible contact took |
| Contest.OnePerSlot | cmd/w4gns-logger/contest_state.go:411-431 | every slot with an eligible contact is counted exactly once, and nothing else is |
| ContestIndex.Index.constructor | cmd/w4gns-logger/contest_state.go:278-357 | a new index is valid for the empty log and knows the station entity exactly when it resolves to a numbered one |
| ContestIndex.Index.AddValue | cmd/w4gns-logger/contest_state.go:536-559 | one multiplier value goes into its band set and its all set, both then agreeing with the counted contacts; a missing value changes neither |
| ContestIndex.Index.RecordZoneTier | cmd/w4gns-logger/contest_state.go:448-508 | the zone category of a newly counted contact, settled by exchange, own zone, or continent |
| ContestIndex.Index.Record | cmd/w4gns-logger/contest_state.go:404-511 | recording a contact keeps every set and map of the index equal to what the longer log says directly |
| ContestIndex.Index.AllSetsAreUnions | cmd/w4gns-logger/contest_state.go:536-559 | after any recordings each all set is the union of its per-band sets |
| ContestIndex.Index.MultiplierCount | cmd/w4gns-logger/contest_state.go:811-991 | the count over the index is the number of distinct (band, value) pairs, their bonus-weighted sum, or the number of distinct values of the counted contacts |
| ContestIndex.Index.PointsTotal | cmd/w4gns-logger/contest_state.go:663-784 | points summed over keys in any map order equal the sum over the counted contacts of the rule applied to each contact itself |
| ContestIndex.Index.ScoreOf | cmd/w4gns-logger/contest_state.go:640-657 | the score read from the index is the score computed directly from the counted contacts; no rules give zero |
| ContestIndex.Index.WouldBeNewMultiplier | cmd/w4gns-logger/contest_state.go:1005-1311 | the two flags: some rule finds its value absent, some rule finds it present, each looked up as that kind looks it up |
| ContestIndex.FlagIsRise | cmd/w4gns-logger/contest_state.go:1005-1311 | for a contact that will count, the NEW MULT flag read from the index is up exactly when recording it raises the multiplier total |
| ContestCount.AllIsUnion | cmd/w4gns-logger/contest_state.go:536-559 | values worked anywhere are the union of the values worked per band |
| ContestCount.ScopedGain | cmd/w4gns-logger/contest_state.go:811-991 | how much a count rises with one more counted contact, for each scope, the bonus-weighted one included |
| ContestCount.UsualScopesAgree | cmd/w4gns-logger/contest_state.go:1005-1311 | for every kind the predictor and the counter read "band" and "contest" alike |
| ContestCount.PredictorIsExact | cmd/w4gns-logger/contest_state.go:1005-1311 | sound and complete: a new multiplier is predicted if and only if the summed count strictly rises, for every rule list whose scopes agree on the band |
| ContestCount.AgreementIsExact | cmd/w4gns-logger/contest_state.go:811-1311 | the prediction of one rule is right for all contests, logs and candidates on a band if and only if the two readings of its scope agree there; otherwise an explicit log shows it wrong |
| ContestPoints.CreditedKeysApart | cmd/w4gns-logger/contest_state.go:411-431 | no two counted contacts share a key when bands hold no separator |
| ContestPoints.SumByKey | cmd/w4gns-logger/contest_state.go:663-712 | summing by key in any order equals summing over the contacts |
| ContestPoints.FlatScore | cmd/w4gns-logger/contest_state.go:640-657 | flat points times unique_call in closed form: distinct eligible keys (or calls) and distinct eligible calls |
| ContestPoints.FlatScoreAnyOrder | cmd/w4gns-logger/contest_state.go:640-657 | that score does not depend on the order of the log or on repeated contacts |
| Clock.Rfc3339Order | cmd/w4gns-logger/outbox.go:128-176 | text order of equal-width UTC timestamps is time order (section 5.1 of RFC 3339) |
| Clock.StampOrder | cmd/w4gns-logger/lotw_query.go:508-517 | text order of 14-digit stamps is time order, and equal stamps are equal times |
| Clock.StampParses | cmd/w4gns-logger/adif_export.go:282-283 | a printed stamp parses back to the time it was printed from |
| Outbox.UploadBackoff | cmd/w4gns-logger/outbox.go:214-226 | the doubling loop computes the retry delay, a year once the attempts are used up |
| Outbox.BackoffClosedForm | cmd/w4gns-logger/outbox.go:214-226 | below twenty attempts the delay is min(2^(n-1), 30) minutes |
| Outbox.TextDueIsTime | cmd/w4gns-logger/outbox.go:128-150 | comparing next_attempt_at as text compares the times |
| Outbox.SelectDue | cmd/w4gns-logger/outbox.go:128-157 | the claim query picks due rows only, as many as fit, each once, none later than one left out |
| Outbox.Store.InsertQsoWithUploads | cmd/w4gns-logger/store.go:688-720 | contact and bound delivery rows appear together |
| Outbox.Store.ClaimDueUploads | cmd/w4gns-logger/outbox.go:128-172 | the claimed rows are leased with their error cleared; no other row changes |
| Outbox.Store.DrainEntry | cmd/w4gns-logger/main.go:2600-2643 | one claimed entry: paused, bound on first use, dropped, rescheduled or handed to an upload |
| Outbox.Store.RecordUploadFailure | cmd/w4gns-logger/outbox.go:188-208 | a failure counts one attempt, stores the error and reschedules; a missing row stays missing |
| Outbox.Store.RetryFailedUploads | cmd/w4gns-logger/upload_status.go:66-83 | the per-destination updates, in any map order and each at its own time, reset exactly the failed or paused rows of the profile at the destinations reached; the first failing update ends them |
| Outbox.Store.DeleteQso | cmd/w4gns-logger/store.go:1071-1097 | deleting a contact removes all its delivery rows in the same step, for the owning profile only |
| Outbox.Store.CompleteLotwBatch | cmd/w4gns-logger/lotw.go:581-616 | every row of a LoTW batch is resolved and logged from the one exit code |
| OutboxProtocol.NeverInFlightTwice | cmd/w4gns-logger/outbox.go:128-208 | over every interleaving no contact is in flight twice to one destination |
| OutboxProtocol.LeasedNotClaimable | cmd/w4gns-logger/outbox.go:128-172 | a row in flight is never claimable before its upload must have ended, whole-second truncation included |
| OutboxProtocol.RetrySkipsFlights | cmd/w4gns-logger/upload_status.go:66-83 | a retry leaves the rows of running uploads alone |
| OutboxProtocol.NothingLost | cmd/w4gns-logger/outbox.go:109-208 | over every run a queued delivery is still queued, was delivered, or its contact is gone; rows never outlive their contact |
| OutboxProtocol.LogQueuesAll | cmd/w4gns-logger/store.go:688-720 | logging makes the contact and a row per destination in one step |
| OutboxProtocol.RowRemoval | cmd/w4gns-logger/outbox.go:176-184 | a row disappears only by a terminal delivery of its own upload or with its contact |
| OutboxProtocol.RowsRemember | cmd/w4gns-logger/outbox.go:188-208 | over every run attempts equals the failures recorded since the last reset, and every send since then used the binding the row holds |
| OutboxProtocol.RowSurvives | cmd/w4gns-logger/main.go:2600-2643 | no step but a retry changes a non-empty binding or lowers attempts |
| OutboxProtocol.SendsUnderBinding | cmd/w4gns-logger/main.go:2600-2643 | every send uses the binding of its row; an unbound row is bound in the step that sends it |
| OutboxProtocol.BindingUntilRetry | cmd/w4gns-logger/upload_status.go:66-83 | between retries a non-empty binding never changes, over whole runs |
| OutboxProtocol.SendsAgree | cmd/w4gns-logger/main.go:2591-2660 | two sends of one row without a retry between them use the same binding |
| OutboxProtocol.ExhaustedWaits | cmd/w4gns-logger/outbox.go:128-150 | a row at twenty attempts is not claimed again before a retry takes it |
| OutboxProtocol.ClaimIsStep | cmd/w4gns-logger/outbox.go:128-172 | what the claim query selects is always a claim the protocol allows |
| OutboxProtocol.BatchIsRun | cmd/w4gns-logger/lotw.go:581-616 | finishing a LoTW batch is a run of completions the protocol allows, one per contact, and leaves the same rows |
| OutboxProtocol.RetryIsRun | cmd/w4gns-logger/upload_status.go:66-83 | a retry of any destinations in any order is a run of one step per configured destination, and leaves the same rows |
| AdiReader.ByteReader.DiscardUntil | cmd/w4gns-logger/adif_import.go:325-335 | reads past the first delimiter of the remaining bytes or to the end |
| AdiReader.ByteReader.ReadUntil | cmd/w4gns-logger/adif_import.go:364-379 | returns the bytes before the delimiter if and only if it comes within the limit |
| AdiReader.NextTagLonger | cmd/w4gns-logger/adif_import.go:267-277 | a tag read from a cut stream is the tag of the whole stream |
| Adif.ParseAdiRecords | cmd/w4gns-logger/adif_import.go:254-323 | the streaming loop hands on the records, and reports the verdict, that the grammar of the stream defines |
| Adif.FieldReads | cmd/w4gns-logger/adif_import.go:267-322 | a written field reads back under its name with its exact value, whatever brackets, colons or end tags the value contains |
| AdifFields.NamesApart | cmd/w4gns-logger/adif_export.go:166-189 | no two field names coincide |
| AdifQso.ExportAdif | cmd/w4gns-logger/adif_export.go:89-121 | the export loop writes the header and then, per contact, the non-blank fields in order and an end tag |
| AdifRoundTrip.ExportParses | cmd/w4gns-logger/adif_import.go:254-323 | every exported file parses without error into one record per contact, for all contacts within the size limits |
| AdifRoundTrip.FieldBack | cmd/w4gns-logger/adif_export.go:166-189 | an exported record holds under each name exactly the shown value of that field, and nothing for fields that are only read |
| AdifRoundTrip.RecordComesBack | cmd/w4gns-logger/adif_import.go:88-182 | the record of a normalised contact is read as that contact |
| AdifRoundTrip.RoundTrip | cmd/w4gns-logger/adif_import.go:88-323 | parsing inverts printing for every list of normalised contacts |
| AdifImport.Importer.InsertChunk | cmd/w4gns-logger/store.go:806-854 | a chunk is inserted whole or not at all, skipping contacts on file |
| AdifImport.Importer.InsertBatch | cmd/w4gns-logger/store.go:787-804 | chunk by chunk; after a failure exactly a first part of the batch is on file |
| AdifImport.Importer.OnRecord | cmd/w4gns-logger/adif_import.go:53-77 | between records the pending batch stays below both caps and nothing accepted is lost or counted twice |
| AdifImport.Importer.ImportAdif | cmd/w4gns-logger/adif_import.go:31-86 | on success the table is the one-by-one insertion of all accepted contacts and Imported plus Skipped is the number of records; on failure it is that of a first part of them; the pending batch never reaches the byte cap plus the largest record |
| AdifImport.InsertConcat | cmd/w4gns-logger/store.go:787-854 | inserting in two batches is inserting in one: batch boundaries are invisible |
| AdifImport.ReimportInsertsNothing | cmd/w4gns-logger/store.go:829-841 | importing again inserts nothing |
| AdifImport.RerunCompletes | cmd/w4gns-logger/adif_import.go:31-86 | inserting a first part and then everything gives the table of inserting everything once |
| AdifImport.RerunsComplete | cmd/w4gns-logger/adif_import.go:31-86 | any number of runs of a file that stopped anywhere, then a complete run, leave the table of one clean run |
| AdifImport.ImportOfExport | cmd/w4gns-logger/adif_import.go:31-86 | importing the export of a table into that table changes nothing |
| LotwReport.ParseReportHeader | cmd/w4gns-logger/lotw_query.go:209-248 | the header loop computes the fields before the end of the header, that it is missing, or that the header is broken |
| LotwReport.ParseReportRecords | cmd/w4gns-logger/lotw_query.go:260-314 | the record loop computes the records and how the stream ended |
| LotwReport.CompleteLonger | cmd/w4gns-logger/lotw_query.go:209-314 | bytes behind the end marker change neither header nor records |
| LotwReport.CutIsRejected | cmd/w4gns-logger/lotw_query.go:209-314 | every prefix of a complete response cut before the end marker closes is rejected |
| LotwReport.ReadReport | cmd/w4gns-logger/lotw_query.go:348-386 | a response is accepted exactly when header and end marker were seen and a declared record count agrees |
| Confirmations.WindowIsHalfHour | cmd/w4gns-logger/lotw_query.go:508-517 | the text window finds exactly the contacts at most thirty minutes away, and none at all when it would pass year 9999 |
| Confirmations.MatchConfirmation | cmd/w4gns-logger/lotw_query.go:503-566 | the query loop and the search for the best row compute the defined match |
| Confirmations.MatchIsBest | cmd/w4gns-logger/lotw_query.go:544-566 | the linked contact fits, and no fitting contact beats it by mode match and then by smaller gap |
| Confirmations.BestIsUnique | cmd/w4gns-logger/lotw_query.go:552-565 | the first best row is the only row that is best and first |
| Confirmations.NoMatchWhenNoneFits | cmd/w4gns-logger/lotw_query.go:503-543 | no contact is linked if and only if the confirmed time is no time or no contact fits |
| ConfirmationSync.Store.Sync | cmd/w4gns-logger/lotw_query.go:327-425 | a sync commits all records and the bookmark of an accepted response, advanced from the bookmark it read before the query, or changes nothing |
| ConfirmationSync.Store.UpdateQso | cmd/w4gns-logger/store.go:1009-1052 | an edit that changes call or band beyond case and blanks unlinks the confirmations of that contact |
| ConfirmationSync.LinksAgree | cmd/w4gns-logger/lotw_query.go:434-566 | in every reachable state a confirmation linked to a live contact agrees with it on profile, call and band and lies within thirty minutes |
| ConfirmationSync.EveryRecordWritten | cmd/w4gns-logger/lotw_query.go:434-488 | each record with a call ends in the table under its key, written from the last record of that key |
| ConfirmationSync.BookmarkNeedsRecords | cmd/w4gns-logger/lotw_query.go:388-425 | the bookmark moves only together with every record of that response that has a call |
| ConfirmationSync.OthersKeepBookmarks | cmd/w4gns-logger/lotw_query.go:388-425 | no step but a sync moves a bookmark, and a sync moves only that of its own profile |
| ConfirmationSync.CutChangesNothing | cmd/w4gns-logger/lotw_query.go:327-425 | a cut response leaves table and bookmark untouched |
| Dxcc.Table.AddAlias | cmd/w4gns-logger/dxcc.go:226-273 | adding an alias keeps exact map and first-character buckets equal to the alias list; a blank prefix is refused |
| Dxcc.ScanIsLongest | cmd/w4gns-logger/dxcc.go:354-371 | the scan finds the longest matching prefix, the first of its length, or nothing when nothing matches |
| Dxcc.BucketIsEnough | cmd/w4gns-logger/dxcc.go:354-371 | scanning one bucket finds what scanning the whole list would |
| Dxcc.Table.LookupCandidate | cmd/w4gns-logger/dxcc.go:354-371 | an exact entry first, else the longest prefix of the whole list |
| Dxcc.FirstIsChosen | cmd/w4gns-logger/dxcc.go:325-350 | trying stably sorted segments picks the shortest non-suffix segment that resolves, the leftmost on ties |
| Dxcc.ResolveMeans | cmd/w4gns-logger/dxcc.go:325-350 | what a call resolves to: its exact entry, else its longest prefix, else the chosen segment of a slashed call |
| Dxcc.Table.Lookup | cmd/w4gns-logger/dxcc.go:325-350 | the bucketed lookup returns that resolution |
| GeoCache.GeoCache.StartIfNeeded | cmd/w4gns-logger/geo_cache.go:56-80 | sweeping, giving up the key and reserving it leave the cache the reservation rule defines |
| GeoCache.GeoCache.Store | cmd/w4gns-logger/geo_cache.go:91-102 | storing a result clears the reservation and keeps or drops the result as defined |
| GeoCache.GrantedWhen | cmd/w4gns-logger/geo_cache.go:56-80 | a lookup is granted if and only if the key is not awaited, its entry, if any, is past its lifetime, and it is listed already or room remains once the entries past their lifetime are gone |
| GeoCache.ExpiredIsRefreshed | cmd/w4gns-logger/geo_cache.go:56-80 | an expired key still listed is always granted its refresh, even at capacity |
| GeoCache.ReservedIsKept | cmd/w4gns-logger/geo_cache.go:91-102 | the result of a reserved key is never dropped |
| GeoCache.StoreKeeps | cmd/w4gns-logger/geo_cache.go:91-102 | a result is dropped if and only if its key is unknown and no room is left |
| GeoCache.RunKeeps | cmd/w4gns-logger/geo_cache.go:42-102 | under any calls entries and reservations are disjoint, together within capacity, and each awaited key has exactly one lookup running |
| Cluster.Session.Connect | cmd/w4gns-logger/main.go:869-883 | a dial of a new generation starts exactly when no socket is adopted, none is being dialled and a callsign is set |
| Cluster.Session.Disconnect | cmd/w4gns-logger/main.go:1158-1171 | the adopted socket is closed and the generation moves on |
| Cluster.Session.ScheduleReconnect | cmd/w4gns-logger/main.go:1178-1194 | a backed-off dial of a new generation, unless the operator disconnected |
| Cluster.Session.OnConnected | cmd/w4gns-logger/main.go:3147-3167 | a stale result only closes its socket; a failure schedules a reconnect; a success is adopted and read |
| Cluster.Session.OnLine | cmd/w4gns-logger/main.go:3168-3215 | a stale line is ignored; an error closes the socket and schedules a reconnect; a line asks for the next read |
| Cluster.OneRead | cmd/w4gns-logger/main.go:3147-3215 | over every run the adopted socket is open and has exactly one outstanding read |
| Cluster.OneDial | cmd/w4gns-logger/main.go:869-1194 | over every run there is at most one dial of the current generation, none beside an adopted socket, and the panel says connecting exactly while there is one |
| Cluster.NoLeak | cmd/w4gns-logger/cluster.go:72-115 | every socket ever opened is adopted, in exactly one dial result in flight, or closed, and nothing adopted or in flight was closed |
| Cluster.BackoffSchedule | cmd/w4gns-logger/main.go:1178-1194 | after k drops in a row the delay is 2, 4, 8, 16, 32 and then 60 seconds |
| Cluster.QuietMeansClosed | cmd/w4gns-logger/main.go:1158-1171 | with nothing in flight no socket is open and none is adopted |
| PartyValues.CreditsMean | cmd/w4gns-logger/qso_party_rules.go:245-279 | the credits a log is scored by, told from its contacts: no /X contact, made in a period whose end is excluded, in CW on a listed band, with readable exchanges of which one names a county, one credit for each place sent and each place received |
| PartyValues.MultipliersMean | cmd/w4gns-logger/qso_party_rules.go:298-354 | the multipliers of a credit, told from its exchanges: any county received from outside; at home the county, state, country, DX and maritime names the event lists; with the band behind when counted per band |
| PartyValues.RepeatEarnsNothing | cmd/w4gns-logger/qso_party_rules.go:281-296 | working a station again on a band between the same places adds no key, whatever the serials, names, reports, times and the writing of its call |
| PartyValues.PlainFigures | cmd/w4gns-logger/qso_party_rules.go:356-418 | off the QSO-only list: points per distinct key, multipliers with operated counties up to the cap, the factor listed for the declared power (HIGH when blank, 0 when none is listed), and the total they make |
| PartyValues.PlainBonus | cmd/w4gns-logger/qso_party_rules.go:384-400 | off the QSO-only list: the bonus once per band the bonus call was worked on, and once per county of a mobile or rover with enough credits sent from it |
| PartyValues.QsoOnlyFigures | cmd/w4gns-logger/qso_party_rules.go:419-426 | on the QSO-only list: one point per distinct key, one multiplier, factor one and no bonus from the first credit on, nothing before |
| PartyValues.DupeMeans | cmd/w4gns-logger/qso_party_rules.go:463-497 | a candidate is flagged exactly when it has credits and each of their keys was earned by a contact in the event with the same call and band, other than the one being edited and not before the session |
| PartyReading.PlaceMeans | cmd/w4gns-logger/qso_party_rules.go:149-205 | a location is read as a maritime region, as a line of distinct counties within its limit and in order, or as a postal area, alias, DX or country prefix, and as nothing else |
| PartyReading.ExchangeMeans | cmd/w4gns-logger/qso_party_rules.go:124-209 | the parser accepts exactly the exchanges whose words and place read as something, and gives that |
| PartySubmission.ExportShows | cmd/w4gns-logger/cabrillo_export.go:330-358 | an export finishes exactly when every contact may be submitted and everything it shows fits its columns; each line shows a credit of the log, or a contact without credits unscored, its sent and received columns without a leading DX: |
| ContestMeaning.EntityMeans | cmd/w4gns-logger/contest_state.go:517-534 | the entity of a contact: the country table with the recorded country, number and zones over it, and in a zone event the zone sent; none exactly when the table does not know the call |
| ContestMeaning.PointsAddUp | cmd/w4gns-logger/contest_state.go:663-712 | the points of a log are what each of its contacts is worth alone, added up |
| ContestMeaning.UnknownWorth | cmd/w4gns-logger/contest_state.go:678-710 | a contact whose call the table does not know is worth nothing by land |
| ContestMeaning.GroupWorth | cmd/w4gns-logger/contest_state.go:679-686 | a contact with a country of the group is worth the group points, or the low-band ones when set, whatever the own country |
| ContestMeaning.StationlessWorth | cmd/w4gns-logger/contest_state.go:688-710 | without an own country any other contact is worth nothing by land |
| ContestMeaning.HomeWorth | cmd/w4gns-logger/contest_state.go:688-689 | a contact within the own country is worth the same-country points |
| ContestMeaning.ContinentWorth | cmd/w4gns-logger/contest_state.go:690-702 | a contact with another country of the own continent is worth its override, taken from the low-band table on low bands when there is one, else the low-band points when set, else the same-continent points |
| ContestMeaning.AbroadWorth | cmd/w4gns-logger/contest_state.go:703-708 | a contact with another continent is worth the other-continent points, or the low-band ones when set |
| ContestMeaning.DistanceWorth | cmd/w4gns-logger/contest_state.go:740-749 | by distance: one point and one for every full step, nothing without both grids |
| ContestMeaning.BandWorth | cmd/w4gns-logger/contest_state.go:756-762 | by band: the points listed for it, nothing for a band that is not listed |
| ContestMeaning.ZoneWorth | cmd/w4gns-logger/contest_state.go:719-735 | by zone: an abbreviation is worth the special points, the own zone its points, an exchange that is neither zone nor abbreviation nothing |
| ContestMeaning.OtherZoneWorth | cmd/w4gns-logger/contest_state.go:495-508 | another zone is worth the points of the own or another continent, nothing when either station is unknown |
| ContestMeaning.IslandWorth | cmd/w4gns-logger/contest_state.go:767-784 | by island: the five cases of who is on an island, and on which |
| ContestMeaning.ValueMeans | cmd/w4gns-logger/contest_state.go:437-493 | which multiplier of each kind a counted contact brings, and from which of its fields |
| ContestMeaning.WorkedMeans | cmd/w4gns-logger/contest_state.go:536-559 | a value is worked on a band, or anywhere, exactly when a counted contact brought it there |
| ContestMeaning.KindsByName | cmd/w4gns-logger/contest_state.go:811-991 | each catalog name counts its own kind; "none" counts one, "unique_call" the calls, any other name nothing |
| ContestMeaning.CountMeans | cmd/w4gns-logger/contest_state.go:811-991 | a rule counts values per band, values weighed 4 on 80M, 3 on 40M and 2 on 20M, 15M and 10M where the kind knows that scope, or values of the whole log |
| ContestMeaning.TotalAddsUp | cmd/w4gns-logger/contest_state.go:640-657 | multipliers are added up over the rules; what the names beside the kinds count |
| ContestMeaning.ScoreMeans | cmd/w4gns-logger/contest_state.go:640-657 | the figures of a score: points by the rule or a flat number per slot, multipliers of the rules or of the one plain multiplier, no bonus and no power factor |
| ContestMeaning.CountedMeans | cmd/w4gns-logger/contest_state.go:411-431 | a contact counts when it has a call, is no /X contact, and no earlier such contact has its call and, unless the event goes by calls alone, its band |
| ContestMeaning.VerdictMeans | cmd/w4gns-logger/contest_state.go:1005-1311 | the verdict on one rule, told from the entry fields: new when the value they would bring was not worked where the rule looks, worked when it was, nothing without a value |
| ContestMeaning.OtherVerdicts | cmd/w4gns-logger/contest_state.go:1005-1311 | the verdict for the names beside the kinds: a call is new when it was not worked, any other name says nothing |
| ContestMeaning.AgreesWhere | cmd/w4gns-logger/contest_state.go:811-1311 | where predictor and counter read a scope alike, by kind, scope and band: an if-and-only-if |
| OutboxMeaning.ClaimableWhen | cmd/w4gns-logger/outbox.go:128-150 | a row may be claimed exactly when it has fewer than twenty attempts and its time has come |
| OutboxMeaning.LogWrites | cmd/w4gns-logger/store.go:688-720 | the contact and the rows logging writes: due at the given time, without attempts or error, each bound to the configuration of its destination |
| OutboxMeaning.QueuedOnce | cmd/w4gns-logger/outbox.go:109-120 | queuing a delivery again changes nothing |
| OutboxMeaning.ClaimWrites | cmd/w4gns-logger/outbox.go:128-172 | a claim leases exactly its rows for ninety seconds, clears their errors and hands out their bindings |
| OutboxMeaning.DrainPauses | cmd/w4gns-logger/main.go:2600-2608 | an entry whose credentials are missing or changed shows that, is otherwise as before and is not sent |
| OutboxMeaning.DrainUnbound | cmd/w4gns-logger/main.go:2609-2616 | an entry that cannot be bound is left as it was |
| OutboxMeaning.DrainGoesOn | cmd/w4gns-logger/main.go:2609-2660 | an entry with accepted credentials is bound when it was not, then sent, dropped with its contact, or charged with a failed attempt |
| OutboxMeaning.CompleteWrites | cmd/w4gns-logger/outbox.go:176-208 | what each end of an upload does to its row, and to no other |
| OutboxMeaning.RetryWrites | cmd/w4gns-logger/upload_status.go:66-83 | a retry makes exactly the rows of the profile and destination that show an error due now, without attempts or error, under the current binding |
| OutboxMeaning.BackfillWrites | cmd/w4gns-logger/lotw.go:525-536 | a backfill adds a LoTW row due now for exactly the contacts of the profile that have none |
| OutboxMeaning.DeleteWrites | cmd/w4gns-logger/store.go:1071-1097 | deleting takes the contact and exactly its rows; a crash takes neither |
| OutboxMeaning.ExitCodes | cmd/w4gns-logger/lotw.go:581-616 | how each exit code resolves and logs a batch |
| OutboxWaits.FailureSetsAside | cmd/w4gns-logger/outbox.go:188-208 | a recorded failure adds one attempt and makes the row due min(2^(n-1), 30) minutes later, a year later from the twentieth on, with the message as its error |
| OutboxWaits.FailureWaits | cmd/w4gns-logger/outbox.go:128-226 | over every run a failed row keeps count, due time and message until a claim or a retry takes it; it may be claimed again from its due time on, and never after twenty failures |
| OutboxWaits.FailureUnclaimed | cmd/w4gns-logger/outbox.go:128-226 | over every run no claim takes a failed row before its due time, or at all after twenty failures, unless a retry took it first |
| AdifReading.RecordMeans | cmd/w4gns-logger/adif_import.go:88-182 | a record is imported exactly when it describes a CW contact with a call, a band and a start time, and as that contact: which named field gives which part of it |
| AdifReading.StartMeans | cmd/w4gns-logger/adif_import.go:92-105 | the start of a contact from its date and a time of four or six digits |
| AdifReading.EndMeans | cmd/w4gns-logger/adif_import.go:106-124 | the end of a contact: on its own date, or on the start date and past midnight when it lies before the start; the start when there is none or it lies before it |
| AdifWriting.ExportSays | cmd/w4gns-logger/adif_export.go:166-252 | an exported record says every part of its contact under its own name: dates and times in digits, long grids in two parts, serials only when they are numbers, the park also as an activity, the contest under the name of its event |
| ImportMeaning.ImportAdds | cmd/w4gns-logger/store.go:806-854 | inserting a list keeps every row and adds, in order, a row for exactly those contacts whose call, band, time and profile neither the table nor an earlier contact has |
| ImportMeaning.NewOnesAre | cmd/w4gns-logger/store.go:829-841 | a contact is among those added exactly when its first occurrence is new to the table |
| ImportMeaning.AcceptedAre | cmd/w4gns-logger/adif_import.go:49-67 | the contacts of a file are exactly those of its records that read as a contact and pass the check of the store |
| LotwReading.ResponseReads | cmd/w4gns-logger/lotw_query.go:209-314 | a response written field by field, with names in any case, passed-over tags and text between, is read as exactly its header and its non-empty records when it keeps the limits, and rejected otherwise |
| LotwReading.AcceptedWhen | cmd/w4gns-logger/lotw_query.go:348-386 | a complete response is accepted unless it declares a number of records and holds another |
| SyncMeaning.LinkMeans | cmd/w4gns-logger/lotw_query.go:454-566 | a confirmation is linked to the first contact of its profile, call and band within half an hour such that no other is preferred by mode and then by distance in time |
| SyncMeaning.RowsAfter | cmd/w4gns-logger/lotw_query.go:434-488 | the rows after a sync: one per key of a record with a call, as its last record says field by field; every other row as before |
| SyncMeaning.SyncWrites | cmd/w4gns-logger/lotw_query.go:327-425 | only an accepted response and a commit change anything; then the records are written and the bookmark moves to the marks the header names |
| SyncMeaning.EditWrites | cmd/w4gns-logger/store.go:1009-1052 | an edit writes call and band and unlinks exactly the confirmations of a contact whose call or band changes beyond case and blanks |
| SyncMeaning.ContactsChange | cmd/w4gns-logger/store.go:1071-1097 | logging adds one contact under a new id; deleting takes the own contact and no confirmation |
| Dxcc.EntityMeans | cmd/w4gns-logger/dxcc.go:325-371 | a call resolves to an entity exactly when the alias list tells it: its last exact entry, else the longest prefix, else what its shortest telling segment names, exactly or by prefix |
| GeoCache.ServedInTime | cmd/w4gns-logger/geo_cache.go:42-102 | over every run an answer is kept unchanged for its lifetime, through requests, sweeps and answers for other keys; a location that exists is kept, any other becomes none |
| Cluster.AlwaysUp | cmd/w4gns-logger/main.go:869-1194 | over every run a session that was not disconnected and has a callsign holds a socket or dials; a disconnected one does neither |
| Cluster.ConnectDials | cmd/w4gns-logger/main.go:869-883 | what connecting does to every field, task and socket |
| Cluster.DisconnectCloses | cmd/w4gns-logger/main.go:1158-1171 | what disconnecting does to every field, task and socket |
| Cluster.StationDials | cmd/w4gns-logger/main.go:769-883 | what a new callsign does: the old connection is dropped and one dial of a new generation started |
| Cluster.DropRedials | cmd/w4gns-logger/main.go:1178-1194 | a failed dial or an ended connection starts one dial of a new generation, two seconds later and then twice as long up to a minute, unless disconnected or without callsign |
| Cluster.DialAdopts | cmd/w4gns-logger/main.go:3147-3167 | a successful dial of the current generation is adopted and read from, and the delays start over |
| Cluster.LineReads | cmd/w4gns-logger/main.go:3168-3215 | a line of the current connection asks for the next and changes nothing else |
| Cluster.StaleIgnored | cmd/w4gns-logger/main.go:3147-3215 | a result of a passed generation changes no field; a socket it brings is closed |
| Cluster.TasksEnd | cmd/w4gns-logger/cluster.go:72-106 | a dial ends with a socket never seen before or with none; a read ends with a line or the end of the connection |
| Cluster.DialsArePaced | cmd/w4gns-logger/main.go:1178-1194 | every dial waits the delay the panel holds and belongs to its generation |
| AdifWriting.AsciiMeans | cmd/w4gns-logger/adif_export.go:214-234 | a value is written character by character: ASCII as it is, any other character by its plain letter or a question mark |
| OutboxMeaning.FreshHistory | cmd/w4gns-logger/outbox.go:109-120 | rows that appear or are retried start their history over |
| OutboxMeaning.EndHistory | cmd/w4gns-logger/outbox.go:176-208 | an upload that ends is charged as a failure or remembered as delivered; a clock tick, a claim, a crash and a deletion leave no trace |
| OutboxMeaning.DrainHistory | cmd/w4gns-logger/main.go:2600-2643 | draining remembers the binding of a send and charges a failed read |
| Clock.LeapYearsCount | cmd/w4gns-logger/lotw_query.go:508-517 | the days before a year in closed form: the Gregorian leap-year rule |
| Clock.MonthLengths | cmd/w4gns-logger/lotw_query.go:508-517 | the lengths of the months |
| TextMeaning.TrimMeans | cmd/w4gns-logger/qso_party_rules.go:124-173 | trimming takes blanks from both ends and leaves none there |
| TextMeaning.UpperMeans | cmd/w4gns-logger/qso_party_rules.go:124-173 | upper case turns small letters into capitals and keeps everything else |
| TextMeaning.WordsMean | cmd/w4gns-logger/qso_party_rules.go:124-173 | the words of a text in order, separated by blanks |
| TextMeaning.SplitMeans | cmd/w4gns-logger/qso_party_rules.go:124-173 | splitting gives parts without the separator that make the text again |
| TextMeaning.NumberMeans | cmd/w4gns-logger/adif_import.go:386-392 | a number is digits behind an optional sign and fits 64 bits |
| TextMeaning.NoNumber | cmd/w4gns-logger/adif_import.go:386-392 | anything else is no number |
| TextMeaning.DigitsMean | cmd/w4gns-logger/adif_import.go:386-392 | the value of digits, the last one counting ones |
| SyncMeaning.RunsOn | cmd/w4gns-logger/lotw_query.go:83-101 | a run goes on step by step; a profile without a stored bookmark has blank marks |

## Left out

- SQL text, schema migration, pragmas and database drivers: tables are maps or sequences and a transaction is one step.
- HTTP, TCP, tqsl and file effects: their outcomes are parameters; uploads are taken to end within 89 seconds of their claim.
- Key handling, views, help texts and the terminal program around the modelled handlers.
- Great-circle geometry: the distance of two grids is a parameter of the contest, already cut to whole kilometres.
- The extractors of single contests (canton, oblast, DOK, section, county, prefix, IOTA) and the tables behind them: parameters.
- Contents of the event catalog and the country file: any event or alias list that passes the loader's checks; parsing of the file is not modelled.
- Dxcc.Table.AddAlias: takes an alias whose overrides of zone, position and continent are already applied to its entity.
- The hash behind upload bindings: a binding is a token that can be compared.
- Text is ASCII except in `AdifQso.Ascii`: Unicode blanks and case folding, and malformed UTF-8, are not modelled.
- Times have whole seconds and years 0 to 9999; the outbox protocol stays a year away from the end of year 9999.
- Score arithmetic is unbounded; 64-bit overflow of a score is not modelled.
- ContestIndex.Index.Record: does not keep the maps that only views read: the list of contacts per call, contact times, and contacts per continent.
- The fields of the contest index for one kind each are entries of two maps indexed by kind.
- Party rules inside the contest index: the scorer reads the list of party contacts, modelled in the party modules.
- The text of a Cabrillo line and all headers but the location: `PartyCabrillo` models which credits become lines of which label, and when the columns of a line fit.
- The ADIF parser's callback: the model collects the records first and then calls the importer on each, which sees the same records in the same order; read errors other than the end of the file are not modelled.
- Bulk uploads started from the command line, which bypass the outbox.
- The second look-up of the tqsl program between the binding check and the send of a LoTW batch.
- Restarts in the cluster protocol: one session from start to end.

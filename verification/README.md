# Setlist assembly engine — a Dafny model

This project models the core of `setlist_builder`, a Go command-line tool that
assembles a live band's setlist from a catalog of songs. The model covers:

- the **set partitioner**, which turns a requested duration in minutes into one to three set targets;
- the **track validator** `tryAddTrackToSet`. It runs four checks in order: artist already used in this set, song already placed anywhere in the build, same non-empty key as the previous track, and more than 300 seconds past the set's target. It commits all of its state at once only when every check passes;
- one **assembly round**. It either scans a shuffled pool for the first acceptable track or scans the pending requests for the first one that can be looked up and accepted. The `countTillRequest` cadence picks which scan runs, and `removeIndex` drops a placed request;
- the **set loop**, which repeats rounds until the set is within three minutes of its target. It is modelled twice: once as written, and once corrected so that the `maxStaleRounds` counter ends a set after five fruitless rounds in a row;
- the **build**, which fills the sets in turn, modelled as written (the source's partition and set loop) and corrected (the corrected partition and set loop). The set of placed songs, the pending requests and the cadence counter are shared by all sets. The artist history, the last key and the running total are reset for each set;
- the underfill warning and the break note printed after the sets;
- small helpers: `ValidateSinger`, `ValidateKey`, `Capitalize` and `buildFailedSongsHTML`.

Modules:
- `Tracks`: the `Int32` type and the track record.
- `Partition`: the set lengths and the break note.
- `Validator`: the validator and the set invariants.
- `Rounds`: one round, as a reference function and as the source's loops.
- `SetLoop`: filling one set, and the underfill warning.
- `Build`: the whole build.
- `Singers`: the validation and capitalisation helpers.
- `FailedSongs`: the failed-songs HTML.
- `Wrappers`: `Option`.

Randomness, the database and the valid-singer and valid-key lists are
parameters:
- each round scans an order that must be a permutation of the working pool. Which permutation is left open; this is what `rand.Shuffle` produces.
- `GetWorking` is a partial map from request names to tracks.
- the lists from the `constants` package are passed in.

The loops are driven by a finite list of shuffles (fuel). Running out of them
is a separate outcome.

Behaviour of the code that the model keeps:
- the validator checks the key before the duration;
- the validator reads only a track's name, artist, key and duration;
- a request whose lookup fails stays in the pending list;
- a requested song placed by an exploration round stays in the pending list;
- the cadence counter is shared by the whole build and is not reset for each set. Once it reaches 3, only request rounds run while any request is pending. So a pending request that the working table does not hold, or that the validator keeps rejecting, blocks exploration. As written, the set loop then never ends, even when the pool still holds a song that would be accepted.

## Model

| member | source | states |
|---|---|---|
| Partition.SetLengths | internal/cli/build.go:160-170 | 91..149 minutes gives two sets of d/2−10; 151..179 gives three of d/3−10; over 180 gives three of 60; every other duration, including 90, 150 and 180, gives the single set [d]; always one to three sets, none over 180 minutes |
| Partition.Breaks | internal/cli/build.go:297-303 | no break section for one set; the section with 20 minutes for two sets, 15 for three, and no length for more |
| Partition.SplitPaysForBreaks | internal/cli/build.go:160-163 | for the split durations, the 10 minutes taken from each set equal the reported break time, so sets plus breaks fit within the requested duration and lose less than a minute per set to rounding |
| Partition.CeilingMatchesTarget | internal/cli/build.go:246 | the `int32` product `set*60` handed to the validator equals the loop's `int(set)*60` for every set length up to 180 whose loop runs |
| Partition.OverlongDurationExceedsCap | internal/cli/build.go:164-167 | as written, 200 minutes gives three 60-minute sets and 210 minutes including breaks |
| Partition.BoundaryDurationsGiveOneLongSet | internal/cli/build.go:160-169 | as written, 150 and 180 minutes give one set with no break, while 149 gives two sets and 151 three |
| Partition.IntendedSetLengths | internal/cli/build.go:160-170 | corrected partition: more than 90 minutes always gives more than one set |
| Partition.IntendedFitsWithinCap | internal/cli/build.go:164-167 | corrected partition: no set over 90 minutes; sets plus breaks never exceed the requested duration or 180 minutes; the per-set deduction equals the break time |
| Validator.TryAdd | internal/cli/build.go:308-343 | rejects exactly when the artist is used in the set, the song is already in the build, the previous key is non-empty and equal, or the total would pass the ceiling + 300 s. Each reason is given exactly when its own check fails and every earlier check passes. On acceptance the name is appended, artist and song join their sets, the key becomes the last key, the total grows by the track's duration and stays ≤ ceiling + 300; nothing else changes |
| Validator.AcceptKeepsSetRules | internal/cli/build.go:318-338 | an accepted track extends the placed history the state describes. The set still has no repeated artist, no repeated song, no song from earlier sets, no two consecutive tracks in the same non-empty key, and a total within ceiling + 300 |
| Rounds.RemoveIndex | internal/cli/build.go:345-347 | the result is one shorter, keeps the entries before the index, shifts those after it down by one, and loses exactly the removed entry (multiset) |
| Rounds.ExploreFrom | internal/cli/build.go:244-255 | nothing is found exactly when every candidate is rejected; otherwise the first accepted candidate is taken, with every earlier one rejected |
| Rounds.RequestFrom | internal/cli/build.go:257-273 | nothing is found exactly when no request is both found by the lookup and accepted; otherwise the first such request is taken, with each earlier one missing or rejected |
| Rounds.Round | internal/cli/build.go:243-274 | a round that places nothing changes nothing. An exploring round places a track from the shuffle, raises the cadence by one and keeps the requests. A request round places a looked-up track, resets the cadence to 0 and shortens the requests by one. In both cases the new set state is the validator's commit |
| Rounds.RequestRoundRemovesPlacedRequest | internal/cli/build.go:257-273 | a successful request round removes exactly the first placeable request. The skipped ones, missing or rejected, stay in the list |
| Rounds.PlayRound | internal/cli/build.go:243-274 | the source's two scanning loops, with early exit, compute the reference round |
| SetLoop.FillAsWritten | internal/cli/build.go:225-281 | the set loop as written never reports a stall; it ends only once the set is within the 180-second margin of its target |
| SetLoop.FillAsWrittenKeepsSound | internal/cli/build.go:217-281 | whatever state the loop stops in, the set has no repeated artist, no two consecutive tracks in the same non-empty key, no song from earlier in the build, and a total within ceiling + 300 |
| SetLoop.StuckSetNeverFinishes | internal/cli/build.go:225-281 | as written, a short set in which the scan the cadence selects can place nothing is never finished, whatever shuffles are supplied; it stays in its starting state |
| SetLoop.OverlongOnlySongLoopsForever | internal/cli/build.go:225-281 | for a 30-minute set whose only song lasts 40 minutes, the loop as written never ends; the corrected loop stalls after five rounds |
| SetLoop.Fill | internal/cli/build.go:225-281 | corrected loop: finishes within the margin, or stalls short after at least five fruitless rounds in a row; it reports an empty working pool only when the pool is empty |
| SetLoop.FillEndsWithinBound | internal/cli/build.go:225-281 | corrected loop: with five rounds per song name not yet placed, plus five, it never runs out of shuffles, and with a non-empty pool it always finishes or stalls |
| SetLoop.StuckSetStalls | internal/cli/build.go:225-281 | corrected loop: a set in which the selected scan can place nothing stalls after five rounds with nothing added |
| SetLoop.DeadRequestBlocksExploration | internal/cli/build.go:243-273 | with the cadence at 3 and one pending request missing from the working table, the loop as written never ends, although the pool's only song would be accepted; the corrected loop stalls after five rounds |
| SetLoop.FillKeepsSound | internal/cli/build.go:217-281 | corrected loop keeps the same set invariants |
| SetLoop.Underfill | internal/cli/build.go:282-286 | a warning exists exactly when the total is below the target; its minutes × 60 + seconds equal the shortfall, with 0 ≤ seconds < 60 |
| Build.FillSets | internal/cli/build.go:217-289 | with either set loop, a completed build has one set per length, the printed setlist grows by one entry per set, and the break note matches the number of sets |
| Build.RunBuild | internal/cli/build.go:152-305 | as written, with the source's partition and set loop: a completed build has as many sets as that partition gives, and the break note for that count |
| Build.RunCorrectedBuild | internal/cli/build.go:152-305 | corrected build, with the corrected partition and set loop: a completed build has as many sets as the corrected partition gives, and the break note for that count |
| Build.FillFromStartKeepsRules | internal/cli/build.go:155-289 | filling sets of at most 180 minutes from an empty build, with either set loop, keeps the setlist invariants |
| Build.BuildKeepsInvariants | internal/cli/build.go:155-289 | as written: in every completed build, no song name appears twice anywhere in the setlist. Each printed set is the names of its placed tracks. Each set has no repeated artist, no two consecutive tracks in the same non-empty key, and a total at most 300 s past its target |
| Build.CorrectedBuildKeepsInvariants | internal/cli/build.go:155-289 | corrected build: the same setlist invariants in every completed build |
| Singers.ValidateSinger | internal/cli/addsingers.go:17-24 | true exactly when the input equals some entry of the valid-singers list |
| Singers.ValidateKey | internal/cli/addsingers.go:26-33 | true exactly when the input equals some entry of the valid-keys list |
| Singers.Capitalize | internal/cli/addsingers.go:35-42 | the empty string stays empty; otherwise the rune length is kept, rune 0 becomes its upper-case form and every later rune is unchanged |
| Singers.CapitalizeIdempotent | internal/cli/addsingers.go:35-42 | capitalizing twice equals capitalizing once, for an idempotent case mapping |
| Singers.CapitalizeFixesUpperInitial | internal/cli/addsingers.go:35-42 | a string whose first rune is already upper case is returned unchanged |
| FailedSongs.BuildFailedSongsHtml | main.go:437-448 | the source's loop builds "" for no songs, and otherwise the heading, one `<li>` item per song in order, and `</ul>` |
| FailedSongs.ItemsAppend | main.go:443-445 | the items of two song lists in sequence are the items of the first followed by those of the second |
| FailedSongs.FailedSongsHtmlLength | main.go:442-447 | the fragment is 0 characters for no songs, otherwise 31 + Σ(9 + length of the name) |
| FailedSongs.SongAppearsVerbatim | main.go:443-445 | song i appears unescaped as `<li>`song`</li>`, right after the heading and the items of the songs before it |

## Left out

- Track attributes other than name, artist, key and duration are left out: genre, year, explicit flag and tempo. The validator does not read them.
- The database is left out: `GetAllTracks`, `AddToWorking`, `GetWorking`, `RemoveFromWorking` and the do-not-play removal. The pool is a sequence, the request lookup is a fixed map, and removal after a placement is not modelled. A removed track's name is already in the placed-song set, so when the lookup returns the track under its own name the validator rejects it anyway. The request is then skipped, just as when the lookup fails.
- `rand.Shuffle` is left out: each round's order is an arbitrary permutation of the pool, supplied as input.
- The number of rounds is bounded by the supplied shuffles, so a run that has not ended by then reports `OutOfFuel`. This is how the model can state that the loop as written never ends.
- `log.Fatalf` on an empty working pool is modelled as the `Fatal` outcome; the process exit is not.
- Printing is left out: the set lengths, the rejection messages and the setlist listing. Only the data the messages carry is modelled.
- `totalDuration` is a Go `int`; its 64-bit overflow is not modelled. Reaching it would need billions of tracks.
- The conversion `int32(d)` of the typed duration is left out, together with `RunBuildQuestions`. That function is interactive, uses temporary directories and calls the downloader. It also returns its empty named result `dnpList` rather than the do-not-play list it collected (build.go:139).
- The interactive loops in `RunAddSingers`, keys.go and manualkeys.go are left out. They wrap `ValidateSinger`, `ValidateKey` and `Capitalize` around standard-input prompts and database reads and writes (`CheckSingers`, `AddToSingers`, `CheckKeys`, `AddOriginalKey`, `GetTrackFromName`).
- Singers.Capitalize: strings are sequences of runes. UTF-8 decoding and re-encoding, including the replacement of invalid bytes, is not modelled. `unicode.ToUpper` is a parameter.
- The `constants` package with the valid singers and keys is not part of this model; the lists are parameters.
- Other parts of the repository are left out as I/O, network or subprocess code:
  - the download and extraction pipeline with its retries and worker pool;
  - audio analysis;
  - Spotify authentication;
  - the HTTP handlers and `showConfirmation`;
  - the database maintenance commands.

## Findings

| source | as written | input that shows it | evidently intended | confidence | as-written member | corrected member |
|---|---|---|---|---|---|---|
| internal/cli/build.go:225-281 | after five stale rounds the outer `for` re-enters the inner loop while the set is still short. `loopMadeProgress` is never reset inside the inner loop. A set that cannot grow is therefore never finished | a 30-minute set whose only candidate is a 2400-second song, over the 2100-second limit | stop the set after five fruitless rounds in a row and report the underfill | high; not executed | SetLoop.StuckSetNeverFinishes | SetLoop.FillEndsWithinBound |
| internal/cli/build.go:164-167 | a duration over 180 is replaced by 60 per set. That gives 180 minutes of sets plus two 15-minute breaks, although the alert promises 180 minutes including breaks | duration 200 | cap the duration at 180, then apply the three-set formula: three 50-minute sets | medium; not executed | Partition.OverlongDurationExceedsCap | Partition.IntendedFitsWithinCap |
| internal/cli/build.go:160-169 | the strict bounds send exactly 150 and 180 minutes to the single-set branch | duration 150 gives one 150-minute set, while 149 and 151 give two and three sets | 91..150 gives two sets, 151..180 three | medium; not executed | Partition.BoundaryDurationsGiveOneLongSet | Partition.IntendedSetLengths |

`Build.RunBuild` composes the source's partition and set loop, and
`Build.RunCorrectedBuild` composes the corrected ones.

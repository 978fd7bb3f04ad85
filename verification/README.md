# govcr, modelled and verified in Dafny

govcr is an HTTP client wrapper that records live exchanges as *tracks* on a *cassette* and replays
them later. This project models its engine and proves what the engine is for.

* **The record/replay machine.** `Cassettes` and `Transport` follow the objects of
  `cassette/cassette.go`, `pcb.go` and `vcrtransport.go` method by method; `Storage`, `Tracks` and
  `Machine` say on values what each operation does. Over whole runs, `Queues` proves that the machine
  refines one first-in-first-out queue per class of requests, `Runs` that the statistics and the wire
  account for every request, and `Fidelity` that a recorded session replays with the recorded outcomes.
* **Many requests at once.** `Interleaving` turns every critical section of the cassette's lock into one
  step and quantifies over all schedules: invariants, and replay at most once with the exact condition
  for it. `Ownership` proves that a request that contends with nobody gets the track it would get alone,
  `Durability` what the store holds, `Progress` that every client comes to an end and no append is lost,
  and `Together` that sessions recorded by many clients play back to many. `Solo` ties a request that
  runs alone back to the sequential machine.
* **The cassette file.** `Container` has the V1 and V2 headers, the marker scan and the parser with the
  panics of Go's indexing and slicing. `Rotation` follows a cassette through histories of saves, failed
  saves, replays, reloads and changes of the crypter, and `Persistence` and `Recipe` say when replaying
  mutators and callers change the file.
* **Matching and cloning.** `Matching` has the counting comparison of headers and the default matchers.
  `Cloning`, `Isolation` and `Bodies` work on objects in the heap: deep clones share nothing with their
  source, so matchers that write to their arguments disturb nobody, and bodies can be read again.
* `Mutators` and `Nonces` cover the header and trailer mutators and the nonce generator check.

`dafny verify dfyconfig.toml` checks all of it.

## What is assumed

* A crypter opens what it sealed under the same nonce. JSON reads back what it wrote, except the replayed
  flag, the request inside a response, URL userinfo and the content of attachments; JSON text starts with
  `{`. Gzip decompresses what it compressed; its output starts with 0x1f (section 2.3.1 of RFC 1952).
  Strings are valid UTF-8, as JSON would otherwise change them.
* The store is one cell per cassette: a write happens whole, and a failed write leaves the old contents.
* The server is any function from the list of all requests that reached it, so it may keep any state.
  UUIDs, nonces and failures of the store are inputs of each operation.
* The theorems about runs take matchers that together form an equivalence relation (proved of both default
  lists) and replaying mutators that leave the replayed flag alone; matchers and mutators are otherwise
  arbitrary functions. Where a theorem asks more of mutators, its row says so. A matcher's verdict and
  writes depend on its two arguments only. A mutator that puts another slice in the place of a body takes
  one that shares no memory with it.
* A nil byte or string slice is read as an empty one. A header key has a non-nil list of values.
  A `url.Userinfo` stands as its encoded text, and the empty text stands for none.

## Where the documentation and the code differ

The model follows the code.

* README.md line 225 says that a replaying mutator does not change the cassette file. `ReplayTrack` hands
  out a pointer into the cassette, so the next save writes the mutated track. `Persistence.FileUntouchedIff`
  says exactly when the file is safe, and `Recipe.RecipeReachesFile` shows that it is not under the recipe
  of lines 523 to 556. A caller that writes into a replayed response writes into the cassette as well
  (`Persistence.FileOutOfReachIff`).
* `ResponseDeleteHeaderKeys` panics on the track of a transport error, which has no response
  (`Recipe.NoPanicIff` says when a VCR that replays with it never does). The statements about runs with
  this mutator are about runs in which it does not.
* A recorded URL with userinfo does not match after a reload (`Fidelity.ReplayableIffNoUserinfo`), so the
  cassette has such a request in another class than the one in which it was sent.
* `DefaultURLMatcher` does not compare `RawFragment` and `OmitHost`, and `cloneURL` drops `OmitHost`.
* A track can be handed to two concurrent requests, because checking and marking are separate critical
  sections (`Interleaving.ExactlyOnceIff` gives the exact condition).
* `SetCrypter` changes the crypter before it saves, so after a failed save the crypter need not fit the
  file (`Rotation.RotationFitsIff` gives the exact condition: a plain file still loads, and so does one
  whose ciphertext the new cipher happens to open).
* A body that cannot be read to its end is cut off: the read error is logged and the part that was read
  is restored as if it were the whole body (`Bodies.Message.CloneBody`).
* The text of a replayed error is not the recorded message (`Tracks.ReplayedErrorText`).

## Model

| member | source | states |
|---|---|---|
| `Transport.VcrTransport.RoundTrip` | `vcrtransport.go:27-67` | without a cassette the VCR refuses and calls nobody; otherwise one call of the object is exactly one step of the machine: reply, cassette, store, wire and modes |
| `Transport.VcrTransport.SetCipherCustomNonce` | `vcrtransport.go:121-128` | if no crypter can be made from the provider and key file, the error and nothing else; otherwise the crypter changes and the cassette is saved, with the store and the error of the value-level operation |
| `Transport.PrintedCircuitBoard.SeekTrack` | `pcb.go:45-63` | returns the first track that is unplayed and matches, marked and carrying the current request; nothing in live-only mode or when no track qualifies, and then the cassette is untouched; never an error |
| `Transport.PrintedCircuitBoard.TrackMatches` | `pcb.go:65-73` | true exactly for a track not yet replayed whose clone matches the clone of the request |
| `Transport.PrintedCircuitBoard.ReplayTrack` | `pcb.go:75-90` | marks the track and puts the current request into its response (how: Tracks.InjectExact); an index out of range is an error that changes nothing |
| `Tracks.InjectExact` | `pcb.go:80-87` | the response carries the current request, whole; nothing else of the track changes, and a track without a response not at all |
| `Transport.PrintedCircuitBoard.MutateTrackReplaying` | `cassette/track/mutator.go:342-346` | the mutators are applied once each, in order |
| `Tracks.MutateInTurn` | `cassette/track/mutator.go:342-346` | no mutators change nothing; one more is applied to what the others made |
| `Transport.PrintedCircuitBoard.MutateTrackRecording` | `pcb.go:92-94` | the mutators are applied to the new track (each once, in order: Tracks.DraftedTrack) and to the slice that its body shares with the live response until one replaces it (Tracks.RewriteExact) |
| `Tracks.DraftedTrack` | `cassette/track/mutator.go:342-346` | recording applies every mutator to the track, in order, whatever becomes of the slice |
| `Tracks.RewriteExact` | `cassette/track/http.go:336-344` | a mutator that keeps the body slice leaves in it what it makes of the body; one that puts another in its place ends the sharing |
| `Machine.Seek` | `pcb.go:53-58` | the index found is selectable and every earlier track is not; none is found only if no track is selectable |
| `Machine.SelectsInOrder` | `pcb.go:65-73` | only unplayed tracks are matched, with the live request first and the recorded one second |
| `Machine.RecordedStep` | `vcrtransport.go:53-66` | a recorded live request appends its track, request and response and error as they were through every recording mutator, with a UUID, whether or not the save works; if it does not, the caller gets its fault |
| `Cassettes.Cassette.NumberOfTracks` | `cassette/cassette.go:134-139` | the int32 congruent to the number of tracks modulo 2^32, hence the number itself below 2^31 |
| `Cassettes.Cassette.TracksPlayed` | `cassette/cassette.go:118-131` | the loop counts exactly the replayed tracks |
| `Cassettes.Cassette.Stats` | `cassette/cassette.go:103-116` | the statistics of the current cassette (what they mean: Runs.StatsMeaning) |
| `Cassettes.Cassette.ReplayTrack` | `cassette/cassette.go:142-156` | succeeds exactly for an index in range, marks that track and no other |
| `Cassettes.Cassette.AddTrack` | `cassette/cassette.go:161-170` | appends the track, stamped with a fresh UUID only if it has none |
| `Cassettes.Cassette.Save` | `cassette/cassette.go:182-213` | writes marshal, then compress, then encrypt; every failure on the way leaves the stored bytes as they were |
| `Storage.SaveExact` | `cassette/cassette.go:182-213` | a save works exactly if there is something to write, the directory can be made and the store accepts; it reports the first thing that went wrong, and changes nothing but the store |
| `Storage.EncodeExact` | `cassette/cassette.go:190-204` | a cassette whose name ends in ".gz" is compressed, any other is not, before it is encrypted |
| `Storage.IsLongPlayIff` | `cassette/cassette.go:173-175` | compressed exactly if the name ends in ".gz" |
| `Cassettes.Cassette.SetCrypter` | `cassette/cassette.go:292-295` | the crypter changes even when the save that follows fails |
| `Cassettes.Cassette.AddTrackToCassette` | `cassette/cassette.go:421-430` | appends the track marked as replayed, then saves; a failed save leaves the track in memory |
| `Storage.RecordExact` | `cassette/cassette.go:161-170` | recording appends the track, marked as replayed and with its own UUID or else a fresh one; SetCrypter changes the crypter only; both report what the save reports |
| `Cassettes.Cassette.ReadCassette` | `cassette/cassette.go:312-343` | the value-level read (when it fails and when it yields nothing: Storage.ReadExact; what it yields: Storage.ReadInvertsWrite) |
| `Storage.ReadExact` | `cassette/cassette.go:312-343` | no name and an unreadable store are errors, and nothing is read exactly if there is no file |
| `Storage.ReadInvertsWrite` | `cassette/cassette.go:312-343` | reading what a save wrote, under the crypter that wrote it, yields the text that was marshalled |
| `Cassettes.Cassette.LoadCassette` | `cassette/cassette.go:435-454` | equals the value-level load (Storage.LoadExact) |
| `Storage.LoadExact` | `cassette/cassette.go:435-454` | loads exactly with a name, a readable store and, if there is a file, contents that decode; it then holds exactly the decoded tracks, all counted as loaded, or is empty without a file; every fault is reported |
| `Queues.StepRefines` | `vcrtransport.go:27-67` | one request is one step of the per-class queues: it gets the head of its class queue, or the server, or a refusal; the queues afterwards are those of the new cassette |
| `Queues.FifoRefinement` | `vcrtransport.go:27-67` | every run, in any mix of modes, refines one FIFO queue per request class: same origins of all replies, and the final cassette has the final queues |
| `Queues.FifoInClosedForm` | `pcb.go:53-58` | the queues in closed form: the n-th request is served by its turn among the earlier requests of its class |
| `Queues.ClassOrder` | `pcb.go:45-63` | in every run, the j-th request of a class that looks at the tape gets the j-th track that waited for that class at the start |
| `Queues.SeekIsHead` | `pcb.go:53-58` | the linear search finds exactly the head of the class queue |
| `Queues.PlayIsDequeue` | `cassette/cassette.go:147-153` | marking a track removes it from the queue of its whole class and from no other |
| `Queues.QueueRecorded` | `cassette/cassette.go:421-426` | a track recorded during the run enters no queue |
| `Queues.ClassesShareOrSplit` | `pcb.go:72-72` | two requests of one class may be given the same tracks, requests of different classes never share one |
| `Runs.RunEvolves` | `cassette/cassette.go:147-170` | over any run the cassette only grows, replayed flags never revert, unplayed tracks stay as they were, appended tracks count as played; this and all statements about runs hold with callers who write into the responses that were replayed to them |
| `Runs.RepliesMadeOfLoaded` | `vcrtransport.go:40-47` | every replayed answer of a run is made of the selected track as it stood before the run, given the current request and mutated once, whatever callers wrote into earlier replayed responses |
| `Runs.LiveRepliesPassedOn` | `vcrtransport.go:53-66` | every live answer of a run is the server's own answer to this very request when exactly the earlier requests and those of the run so far that went live had reached it, with the same error inside a stack trace and the same response; its body is what the recording mutators leave in the shared bytes, and the server's own unless one of them writes into these bytes before one replaces them |
| `Runs.LiveWithoutMutators` | `vcrtransport.go:53-66` | without recording mutators, the caller of a live request gets the server's whole response |
| `Tracks.LeavesBytesIff` | `cassette/track/http.go:336-344` | no mutator changes the shared bytes while the track has them if and only if they are unchanged after each of the mutators |
| `Runs.StatsMeaning` | `cassette/cassette.go:108-115` | TracksPlayed is the number of replayed tracks in the loaded prefix; 0 <= TracksPlayed <= TracksLoaded; TotalTracks = TracksLoaded + TracksRecorded |
| `Runs.RunCounts` | `vcrtransport.go:40-66` | every request is exactly one of replayed, live or refused, and the wire, the cassette and the flags account for each |
| `Runs.StatsConservation` | `cassette/cassette.go:103-116` | after any run on a fresh cassette, TracksRecorded is the number of live calls made while recording (failed saves included) and TracksPlayed the number of replayed requests |
| `Runs.ModesRestrain` | `vcrtransport.go:49-54` | offline no request reaches the server; read-only nothing is appended or written |
| `Runs.RunIdentifies` | `cassette/cassette.go:165-167` | in every run every recorded track gets a UUID, as long as the generator yields some |
| `Fidelity.Recording` | `vcrtransport.go:53-66` | while nothing waits on the cassette, each request goes live and leaves its own track, in order, and a successful last save stores them all |
| `Fidelity.SessionReloads` | `cassette/cassette.go:435-454` | a recorded session reloads to exactly its tracks, ready to be replayed |
| `Fidelity.ReloadedQueue` | `cassette/cassette.go:435-454` | after the reload, the queue of each class holds, in order, the positions of the recorded requests that the cassette has in this class |
| `Fidelity.WantedIsSeen` | `cassette/track/http.go:141-171` | if recording mutators leave requests alone and URLs carry no userinfo, the cassette has each recorded request in the class in which it was sent |
| `Fidelity.ReplayOrigin` | `pcb.go:53-58` | over the reloaded session the j-th request of a class is answered by the j-th track of that class, or refused if there are not so many |
| `Fidelity.ReplayOffline` | `vcrtransport.go:40-51` | offline over the reloaded session, for any list of requests: no live call, and each reply is faithful |
| `Fidelity.RecordThenReplay` | `vcrtransport.go:32-66` | record, save, reload, replay offline, for every stateful server, every list recorded, every list replayed and all recording mutators, with or without encryption and compression: no live call, and the j-th request of a class gets the outcome of the j-th recorded request that the cassette has in this class, as the mutators make it; without mutators it is the response and the error (or none) that the server gave |
| `Fidelity.SameOrderSameOutcomes` | `vcrtransport.go:40-47` | repeating the recorded requests gives the recorded outcomes one by one |
| `Fidelity.ReplayableIffNoUserinfo` | `cassette/track/http.go:366-375` | both default matcher lists find the reloaded track of a request again if and only if its URL carries no userinfo |
| `Tracks.AnswerIsFaithful` | `cassette/track/track.go:29-167` | a track made of an outcome, stored, read back and marked answers with the same response, which carries the recorded request without its body, and with an error exactly if there was one; the error carries the recorded type name and message, and the three network errors come back as their own type |
| `Tracks.ToResponseExact` | `cassette/track/http.go:201-229` | a recorded response is the live one, field by field, without the request that led to it |
| `Tracks.NewTrackExact` | `cassette/track/track.go:29-51` | a new track holds the request, the response and, exactly if there was an error, its type name and message |
| `Tracks.PersistedKeeps` | `cassette/track/track.go:17-26` | a reload resets the flag and loses the request inside the response, userinfo and attachment content; every other field is kept |
| `Tracks.ReplayedErrorText` | `cassette/track/track.go:65-106` | the text of a replayed error ends in the recorded message and is never the message alone |
| `Tracks.ReloadKeepsRequest` | `cassette/track/http.go:141-171` | without userinfo, a reloaded request is to a matcher what the live one was |
| `Tracks.PersistedIdempotent` | `cassette/track/track.go:17-26` | what is stored of a track survives any number of saves and loads |
| `Interleaving.EveryInterleaving` | `pcb.go:45-90` | in every interleaving of critical sections: the cassette only grows, flags never revert, appended tracks are never chosen, snapshots never exceed the length, SeekTrack never fails |
| `Interleaving.AdvanceKeepsInvariant` | `cassette/cassette.go:142-170` | each single critical section keeps that invariant for all requests in flight |
| `Interleaving.ExactlyOnce` | `pcb.go:55-57` | if in-flight requests never share a track, no interleaving hands a track to two requests, although check and mark are separate sections |
| `Interleaving.ChosenAlone` | `pcb.go:55-76` | under that condition no two requests have chosen the same track at once |
| `Interleaving.HandedTwice` | `pcb.go:55-57` | two requests that find the same first track both get it when both look before either marks |
| `Interleaving.ExactlyOnceIff` | `pcb.go:55-57` | at most once in all interleavings if and only if no two requests are in one class for which a track is waiting |
| `Ownership.ConcurrentFifo` | `pcb.go:53-76` | in every interleaving, however other requests contend: a request that contends with nobody and is served got the first track that waited for it at the start and the answer made of that track as it was then; if it went live or was refused, it had none |
| `Ownership.ConcurrentFifoForAll` | `pcb.go:53-76` | without any contention this holds of all requests at once |
| `Ownership.PlaybackByMany` | `concurrency_test.go:87-115` | each request with a track of its own and each track with a request: in every interleaving, once all are finished, each got the answer of its own track, no live call was made, nothing was recorded, and TracksPlayed is the number of loaded tracks |
| `Together.ManyRecord` | `cassette/cassette.go:421-454` | in every interleaving of a recording by many in which all succeed, the store reloads to as many tracks as clients, exactly one for each, with what the server answered to it when all that had reached it was the wire up to its request, a different place for each client |
| `Together.ManyRecordManyPlay` | `concurrency_test.go:54-107` | many clients record from an empty cassette with success, it is reloaded, and any clients play it back, with any mutators: in every interleaving of either, a served request that contends with nobody gets the answer made of what the server said to a recorded client of its class, and one that goes live or is refused has no recorded track in its class |
| `Together.ManyRecordSamePlay` | `concurrency_test.go:54-115` | clients without userinfo and of pairwise different classes, with recording mutators that leave requests alone, record a session all at once, it is reloaded, and the same clients play it back all at once: in every interleaving of either, once all are finished, each got from the cassette what the server had said to it, as the mutators make it (without mutators, the server's outcome), no live call was made, and the statistics are (n, n, 0, n) for n clients |
| `Together.FairSession` | `concurrency_test.go:23-116` | the same with nothing assumed of how the interleavings end: it is enough that saves work and that each client gets as many turns as there are tracks and clients, and five more |
| `Progress.EveryClientFinishes` | `vcrtransport.go:27-67` | in every interleaving, whatever the others do, a client is finished after as many turns of its own as there are tracks and clients, and five more |
| `Progress.EveryInterleavingManned` | `cassette/cassette.go:161-170` | in every interleaving each track beyond the loaded ones has exactly one client that appended it, so no append is lost |
| `Progress.TracksExact` | `cassette/cassette.go:161-170` | when every client has recorded, there are exactly as many new tracks as clients |
| `Progress.EveryInterleavingRecords` | `vcrtransport.go:53-66` | on an empty cassette, recording and not offline, while saves work, no client is refused, replayed or fails to record |
| `Interleaving.WalkPast` | `pcb.go:54-58` | an undisturbed search passes over the tracks it may not replay and changes nothing |
| `Solo.SoloIsRoundTrip` | `vcrtransport.go:27-67` | a request that runs alone, section by section, ends in the state of one sequential step and with its very reply, outcome or fault included |
| `Durability.NeverOutOfRange` | `cassette/cassette.go:142-145` | from a loaded cassette, in every interleaving: the range check never fails, no recorded track is chosen, the tracks beyond the loaded ones are all replayed |
| `Durability.EveryInterleavingDurable` | `cassette/cassette.go:182-213` | with replaying mutators that keep stored content: in every interleaving, failed saves included, the store decodes to a prefix of the cassette that holds every track whose recording reported success |
| `Durability.EveryInterleavingBeyond` | `cassette/cassette.go:182-213` | with any replaying mutators that leave the flag alone: in every interleaving, failed saves included, the store decodes to as many tracks as the last save that worked, they agree with the cassette beyond the loaded ones, and every track whose recording reported success is among them |
| `Durability.RecordedStaysStored` | `cassette/cassette.go:421-430` | once AddTrackToCassette returned nil, the decoded store holds that track at its index whatever happens later and whatever replaying mutators do to loaded tracks |
| `Durability.LoadedHolds` | `cassette/cassette.go:435-454` | every cassette that loads, from any file, plain, V1 or V2, with or without a crypter, satisfies the premise of the durability theorems |
| `Storage.SpareIsIgnored` | `cassette/cassette.go:377-417` | what decodes does so whatever lies between the length and the capacity of the data |
| `Rotation.HistoryReadable` | `cassette/cassette.go:235-295` | in every history of records, replays, rotations and reloads the store reads back, under the crypter that wrote it, as the tracks that were written |
| `Rotation.RotationReloads` | `cassette/cassette.go:292-295` | after any history, a save that works leaves a file that reloads under the current crypter to exactly the current tracks with their flags reset, and has a V2 marker exactly if there is a crypter |
| `Rotation.NeverPlaintextAgain` | `vcrtransport.go:121-128` | once a crypter is set, the transport never writes plaintext: the store is as before or V2, and V2 from the first save that works, so a V1 file is converted; other VCRs that load the file do not change this, with crypters, or once it is V2 without |
| `Rotation.FailedRotation` | `cassette/cassette.go:292-295` | after a failed rotation the file reads back under the crypter that wrote it; a crypter of another kind opens the file if and only if the rotation worked or the file was written in the clear |
| `Rotation.RotationFitsIff` | `cassette/cassette.go:292-295` | for every file that some crypter, or none, opens: after SetCrypter the new crypter opens the stored file if and only if the save worked, or the file is plain, or its cipher opens the old nonce and ciphertext and, for V2, the kinds agree |
| `Rotation.RunIsHistory` | `vcrtransport.go:27-67` | every run of the machine does to the cassette what such a history does, by lawful operations of the transport |
| `Storage.UnderAnotherCrypter` | `cassette/cassette.go:270-286` | what a crypter makes of a file that another, or none, opens: a plain file loads all the same, a V2 file of another kind is refused, and otherwise the result is what its cipher makes of the stored nonce and ciphertext |
| `Persistence.FileUntouchedIff` | `README.md:225` | while callers write nothing into responses: no run changes a loaded track in the file if and only if, for every loaded track and every request that may replay it, the replaying mutators leave its stored content alone |
| `Persistence.FileOutOfReachIff` | `README.md:225` | whatever callers do: no run changes a loaded track in the file if and only if mutators spare it as above and no replay hands out anything that can be written to |
| `Persistence.OutOfReachIff` | `cassette/track/track.go:139-167` | the holder of a replayed response can change stored content of the track if and only if it is handed some map, slice or object |
| `Persistence.ChangeReachesFile` | `cassette/cassette.go:150-155` | whatever replaying mutators make of a track that a request may replay, some run writes to the file |
| `Persistence.KeepsContentSpares` | `README.md:225` | on every loaded cassette, mutators that never change stored content leave the loaded tracks in the file as they were, in every run |
| `Recipe.RecipeReachesFile` | `README.md:523-556` | with the matcher and mutators of the recipe, and callers who write nothing, some run stores the track of transaction 1 as one of transaction 2 |
| `Recipe.RecipeIsEquivalence` | `README.md:541-549` | the matcher of the recipe, which writes to its arguments, is an equivalence relation on requests |
| `Storage.PipelineRoundTrip` | `cassette/cassette.go:190-204` | decode undoes encode for every list of tracks, compressed or not, encrypted or not; the marker found is V2 exactly under a crypter |
| `Storage.V1Loads` | `cassette/cassette.go:378-386` | a V1 file loads to the tracks it was made of, whatever the kind of the crypter |
| `Storage.PlainLoadsUnderCrypter` | `cassette/cassette.go:279-283` | a plain cassette also loads with a crypter |
| `Storage.EncryptedNeedsItsKind` | `cassette/cassette.go:271-277` | an encrypted cassette does not load without a crypter, nor with one of another kind |
| `Storage.Int32Exact` | `cassette/cassette.go:134-139` | for lengths below 2^32, the int32 conversion is exact if and only if there are fewer than 2^31 tracks |
| `Container.GetEncryptionMarker` | `cassette/cassette.go:345-364` | the bounded scan computes the marker (exactly which: Container.MarkerExact) |
| `Container.MarkerExact` | `cassette/cassette.go:345-364` | a marker is found exactly when at least 3 bytes start with `$` and the second `$` is at index 256 or before, and it is the prefix up to there |
| `Container.NoMarker` | `cassette/cassette.go:279-283` | data that does not start with `$`, as JSON and gzip output, has no marker |
| `Container.EncryptionFilter` | `cassette/cassette.go:235-266` | without a crypter the data itself; else the nonce error, a kind or nonce too long, or the V2 file of kind, nonce and ciphertext |
| `Container.EncryptedExact` | `cassette/cassette.go:235-266` | encryption works exactly without a crypter, or with a nonce where kind and nonce have at most 255 bytes each; which error it is otherwise; and the file holds the kind, the nonce and the sealed data |
| `Container.Decrypt` | `cassette/cassette.go:368-418` | on data whose parse stays in range, the nonce and ciphertext found are handed to the cipher, or the marker or kind is refused |
| `Container.DecryptionFilter` | `cassette/cassette.go:270-286` | a marker without a crypter is an error, no marker means plain data, else Decrypt |
| `Container.DecryptedMarkers` | `cassette/cassette.go:270-286` | data without a marker passes; any marker is refused without a crypter, an unknown one with one |
| `Container.MarkersSpell` | `cassette/cassette.go:45-48` | the markers spell `$ENC$` and `$ENC:V2$` |
| `Container.V1Exact` | `cassette/cassette.go:378-386` | a file with the V1 marker parses to a nonce and a ciphertext if and only if it is the V1 file of these two |
| `Container.V2Exact` | `cassette/cassette.go:388-408` | a file with the V2 marker parses to a nonce and a ciphertext if and only if it is the V2 file of these two under the kind of the crypter |
| `Container.V2Parses` | `cassette/cassette.go:256-263` | the V2 file of any kind and nonce of at most 255 bytes and any ciphertext parses to exactly these parts |
| `Container.V1Parses` | `cassette/cassette.go:378-386` | the V1 file of any nonce of at most 255 bytes and any ciphertext parses to exactly these parts |
| `Container.OtherKindRejected` | `cassette/cassette.go:400-402` | a crypter of any other kind refuses the file |
| `Container.V2Injective` | `cassette/cassette.go:256-263` | distinct triples give distinct files |
| `Container.DecryptRangeExact` | `cassette/cassette.go:377-417` | the exact set of inputs on which every index and slice of Decrypt is in range |
| `Container.FilterRoundTrip` | `cassette/cassette.go:235-286` | decryption filter after encryption filter is the identity on data that does not start with `$` |
| `Matching.RunMatchers` | `matchers.go:26-34` | the loop answers as the fold of the matchers in which each sees what the earlier ones wrote; no matchers, no match |
| `Matching.MatchInTurn` | `matchers.go:26-34` | each matcher is asked in turn with what the earlier ones left, and an empty list matches nothing |
| `Matching.PostalSort` | `matchers.go:109-124` | the counting loops decide equality of the two lists as multisets |
| `Matching.AreHttpHeadersEqual` | `matchers.go:98-128` | true if and only if the key sets are equal and each key has the same values as a multiset, for any iteration order |
| `Matching.StrictMatchIsSameKey` | `matchers.go:37-45` | a strict match holds if and only if method, URL, body and the header and trailer multisets are equal, nil and empty being the same |
| `Matching.StrictMatchMeans` | `matchers.go:37-96` | the same field by field: method, body, every URL field but RawFragment and OmitHost, and header and trailer values per key in any order |
| `Matching.StrictIsEquivalence` | `matchers.go:37-45` | strict matching is an equivalence relation |
| `Matching.MethodUrlMatch` | `matchers.go:48-53` | a method-URL match holds if and only if the methods and the compared URL fields are equal |
| `Matching.MethodUrlIsEquivalence` | `matchers.go:48-53` | method-URL matching is an equivalence relation |
| `Matching.StrictImpliesMethodUrl` | `matchers.go:37-53` | a strict match is also a method-URL match |
| `Cloning.RequestObject.Clone` | `cassette/track/http.go:45-74` | the clone reaches only new objects; body, header maps and plain fields are those of the source, and its value is the cloned value (what that keeps: Http.CloneKeeps) |
| `Http.CloneKeeps` | `cassette/track/http.go:43-171` | a clone has every field of its source but for the URL and attachments; of the URL every field but userinfo and OmitHost, of attachments everything but their content |
| `Http.CloneIsSelfIff` | `cassette/track/http.go:43-171` | a request is its own clone if and only if its URL does not set OmitHost, its encoded userinfo needs no further encoding, and its attachments have no content |
| `Cloning.PartsRead` | `cassette/track/http.go:22-41` | the value of a request object is that of its fields, one by one |
| `Cloning.CloneMapOfSlices` | `cassette/track/http.go:123-138` | a new map of new slices with the same contents; nil for nil |
| `Cloning.CloneFileSlice` | `cassette/track/http.go:105-121` | a new slice of new file headers, equal but for the content that cannot be cloned; nil for nil |
| `Cloning.CloneFileMap` | `cassette/track/http.go:90-102` | a new map of new slices of new file headers; nil for nil |
| `Cloning.CloneMultipartForm` | `cassette/track/http.go:76-87` | a form that shares nothing with its source and has its values and file headers |
| `Cloning.CloneUrlObject` | `cassette/track/http.go:361-389` | a new URL object with the cloned value; nil for nil |
| `Cloning.CloneStringSlice` | `cassette/track/http.go:290-295` | a new slice with the same strings, empty for nil |
| `Cloning.CloneBytes` | `cassette/track/http.go:50-51` | a new slice with the same bytes, empty for nil |
| `Http.CloneIdempotent` | `cassette/track/http.go:361-389` | without userinfo, cloning a clone any number of times changes nothing more |
| `Http.CloneUrlExact` | `cassette/track/http.go:361-389` | a URL is copied faithfully if and only if it does not set OmitHost and neither part of its encoded userinfo needs encoding once more |
| `Http.ReEscapeDecodes` | `cassette/track/http.go:366-375` | the userinfo of the cloned URL decodes to the encoded userinfo of the source |
| `Isolation.TrackMatches` | `pcb.go:65-73` | whatever the matchers write into their arguments, each other's objects included, the request and every track of the cassette keep their values, and the verdict is that of the matchers on clones of these values |
| `Isolation.MatchOnClones` | `pcb.go:68-72` | the matchers run on clones and modify no object that existed before |
| `Isolation.RunUserMatchers` | `matchers.go:26-34` | matchers that write, and may make the two requests share objects, are asked in order, each given what the earlier left, until one refuses |
| `Isolation.CallsAreMatchFrom` | `matchers.go:26-34` | such a chain of calls gives the verdict of the fold over the matchers as functions |
| `Bodies.Stream.ReadAll` | `cassette/track/http.go:306-306` | all that could be read, in a new slice, and nothing is left; an error exactly if the stream breaks off |
| `Bodies.Message.CloneBody` | `cassette/track/http.go:297-345` | the bytes that could be read are returned and can still be read from the message, in the very slice that was returned; a read error is logged and lost |
| `Bodies.Message.CloneMessage` | `cassette/track/http.go:408-409` | the clone has a body stream of its own with the same content, and the source keeps its content |
| `Bodies.DrainThrice` | `vcrtransport.go:32-56` | search, recording and live transport all see the same bytes, all that could be read |
| `Bodies.MutateInPlace` | `cassette/track/http.go:336-344` | a recording mutator that writes into the body bytes is seen by the caller of the live request |
| `Bodies.MutateByReplacing` | `cassette/track/mutator.go:313-319` | a recording mutator that replaces the body slice is not |
| `Bodies.MutateRecording` | `vcrtransport.go:53-59` | with the slice in memory, any recording mutators leave the track and the live body that the drafts say |
| `Mutators.TrackCell.ResponseDeleteHeaderKeys` | `cassette/track/mutator.go:221-229` | the loop deletes the keys (the effect: Mutators.DeletedHeadersExact) |
| `Mutators.TrackCell.ResponseTransferHttpHeaderKeys` | `cassette/track/mutator.go:233-263` | the loop transfers the keys (the effect: Mutators.TransferredHeadersExact); nothing without a response or its request (Mutators.NothingToTransfer) |
| `Mutators.TrackCell.ResponseTransferHttpTrailerKeys` | `cassette/track/mutator.go:267-297` | the loop transfers the keys (the effect: Mutators.TransferredTrailersExact) |
| `Mutators.DeletedHeadersExact` | `cassette/track/mutator.go:221-229` | only the header of the response changes; a header named by some key is gone, every other is as before |
| `Mutators.TransferredHeadersExact` | `cassette/track/mutator.go:233-263` | only the header of the response changes; each key that names a header of the request in the response appends its first value once |
| `Mutators.TransferredTrailersExact` | `cassette/track/mutator.go:267-297` | only the trailer of the response changes; each key that names a trailer of the request in the response appends its first value once |
| `Mutators.NothingToTransfer` | `cassette/track/mutator.go:233-281` | without a response, or without its request, nothing is transferred |
| `Mutators.ReplayEchoesTrailer` | `cassette/track/mutator.go:267-297` | as a replaying mutator it appends the first trailer values of the request at hand to the recorded ones |
| `Mutators.DeletedLookup` | `cassette/track/mutator.go:221-229` | a header named by some key is gone, every other is as before |
| `Mutators.TransferredLookup` | `cassette/track/mutator.go:233-297` | each key that names a header or trailer of the request appends its first value once; nothing else changes |
| `Mutators.DeleteThenTransfer` | `cassette/track/mutator.go:221-263` | after both, a named header holds the first value of the current request as often as it was named, so exactly that one value if and only if it was named once; absent if the request lacks it; other headers are unchanged |
| `Mutators.DistinctNamedOnce` | `cassette/track/mutator.go:221-263` | keys with distinct canonical names are each named once |
| `Mutators.ReplayEchoesRequest` | `pcb.go:84-87` | as replaying mutators on a track with a response, they make the replayed response carry the header values of the request at hand |
| `Mutators.EchoingKeepsFlag` | `cassette/track/mutator.go:221-263` | they meet the premise of the run theorems |
| `Recipe.NoPanicIff` | `cassette/track/mutator.go:221-229` | a VCR that deletes and transfers headers on replay never panics if and only if there is no key, or no request may replay a track without a response |
| `Nonces.ValidateNonceGenerator` | `encryption/nonce.go:35-53` | accepts if and only if the first 1000 draws succeed and are pairwise distinct; otherwise the first failure or the first repetition decides the error |
| `Nonces.HexInjective` | `encryption/nonce.go:44-44` | distinct nonces have distinct hex texts, so comparing the texts is enough |
| `Nonces.FewNoncesRejected` | `encryption/nonce.go:35-53` | a generator with fewer than 1000 possible nonces is always rejected |

## Left out

- Cassettes.Cassette.Stats: taken below 2^31 tracks, where the int32 conversions of the source are exact.
- Cassettes.Cassette.ReplayTrack: taken below 2^31 tracks, as is every method that calls it.
- Transport.PrintedCircuitBoard.SeekTrack: taken below 2^31 tracks.
- Transport.VcrTransport.RoundTrip: taken below 2^31 tracks; matchers and mutators are functions on values here; module Isolation covers matchers that write to the objects they are given.
- Fidelity.RecordThenReplay: the TLS state of a response is not compared.
- Container.Decrypt: called only where no index or slice panics; Container.DecryptRangeExact says where that is. A panic of the cipher on a nonce of the wrong length is not modelled.
- Durability.RecordedStaysStored: the crypter does not change while requests are in flight.
- Mutators.TrackCell.ResponseDeleteHeaderKeys: the nil dereference on a track without a response is excluded by a precondition.
- TLS state, certificates and the copier fallback of `cloneTLS`: opaque library objects.
- AES-GCM, ChaCha20-Poly1305, random bytes, gzip and JSON: abstract, with the laws above.
- File system and S3 stores, key files, UUID generation, logging and the command line: input and output.
- Setters that only forward (`ControlPanel`, `VCRSettings`, `Add` on collections) and the `Any`/`All`/`Not`/`On` predicates of mutators: easy members. `HasErr` and `HasNoErr` are the reverse of their comments in the source and belong to these.
- Concurrent changes of crypter, mode, matchers and mutators, and data races on the response objects that replaying shares: unsynchronised in the source, so these operations are sequential here.
- Mutators that still run on a track when an append has moved the slice: of the response, and of each map, slice and object of the request, the interleaved model leaves on the cassette either what was there or what the mutators made of it; a mutator that first writes into one of them and then puts another in its place is left out.

# Proofs about the meeting agent

A Dafny model of the parts of the repository where its state, its protocols and its arithmetic live, and
proofs of what they keep. `dafny verify dfyconfig.toml` checks all of it.

Four components are modelled.

1. **Approval-gated workbook updates.** `Lexicons`, `Workbooks` and `RowMatching` model how the Excel
   connector reads a roadmap: header and status texts, schema search, row list, row choice. `FileWrites`
   is the write protocol alone, for any kind of content. `RoadmapConnector` puts propose, apply and
   rollback together over a store of workbooks, `ExcelConnector` has the connector's loops and its class,
   and `Undo` follows backups over whole histories. `RoadmapReading` says what the connector finds, proposes and
   answers from the cells and the files alone. `Capabilities` is the capability engine, its tool
   runner and the roadmap workflow as one machine in which every step lies between two awaits, so that
   any interleaving is a run. `Lifecycle`, `Justification` and `Journal` prove what holds of every run, and
   `CapabilityEngines` is the engine as a class whose methods are proved to do what the machine does;
   `Invocations` says which calls of it write.
2. **The event-sourced runtime.** `AgentStates` is the state machine. `EventStore` is the log with its
   subscriptions. `Timeline` has the two reducers, the server's rebuild and the browser's `applyEvent`.
   `Runtime` cuts the runtime into stretches that nothing can interrupt; an injection is two of them, around
   the one real suspension (`sleep(0)` at src/jarvis_agent/adapters/transcription.py:41).
   `RuntimeInvariants`, `RuntimeReplay`, `RuntimeRestarts` and `TranscriptOrder` prove what holds at every
   point between them, `RuntimeEffects` what each request does and logs, `RuntimeContents` what the transcripts
   and facts of a run say, `LiveScreens` what a browser shows that hears of them through a subscription, and
   `JarvisRuntimes` is the class.
3. **Audio pre-roll and codec.** `AudioBuffer` and `CaptureCodec`.
4. **The online diarizer.** `Diarization`.

Where the source updates fields or arrays in place, or loops, the model has a class or a method, proved
against a specification function; the theorems are about those functions and about runs of them.

`OrderedMaps` is a map that keeps its insertion order, as Python's dictionaries and JavaScript's `Map` do;
`Basics` and `Wrappers` are shared helpers.

## What the proofs found

The model follows the code. Where the code does not keep what its documentation or its names promise, the
project proves exactly when it does; `Counterexamples`, `RuntimeCounterexamples`, `ConnectorCounterexamples`
and `LateWrites` have inputs and whole runs on which it does not, those of the connector on the roadmap of
`SampleRoadmap`.

- `merge` of the diarizer takes Python's negative indices, so that two different indices can name one
  cluster; then the cluster is lost with its count. `Diarization.MergeKeepsTotalExactly`. Over every run, what
  is still counted and what was lost add up. `Diarization.RunConserves`.
- `recover` is stuck exactly when the machine was started in the error state and has been in no other.
  `AgentStates.RecoverLeavesErrorExactly`.
- An exception after the file was replaced still answers with a failure, and then the file has changed.
  `RoadmapConnector.FailureLeavesWorkbookExactly`. A process that dies during a write leaves its working
  copy behind, as one more workbook to be discovered. `RoadmapConnector.DeathLeavesCandidateExactly`.
- A subscription misses events exactly in three ways. The comment that a slow client can replay them from its
  cursor holds of a missed event exactly as long as no later one has been delivered; so it soon fails for all
  three. `EventStore.GapFreeExactly`, `EventStore.ReplayFromCursor`.
- The projection is rebuilt from the first 10000 events only. In every run, earlier restarts of that kind
  included, a rebuild gives the live projection exactly when no event past those, and since the last restart,
  starts a meeting, ends a segment or finds a fact, and the last meeting ended among these events, if any was,
  is the one in the rebuilt projection; a meeting ended later comes back active.
  `RuntimeRestarts.RebuiltExactly`, `RuntimeCounterexamples.EndForgotten`.
- An event older than the last 1200 is applied a second time when it is delivered again.
  `Timeline.RedeliveryExactly`.
- Transcript segments overlap, because an injection fixes its start before it is suspended. On a transcript
  without overlaps and without segments carried over from another meeting, resuming an injection of this
  meeting makes one exactly when a segment has joined meanwhile, and one carried into this meeting exactly when
  it starts before the last segment ends. `TranscriptOrder.OverlapExactly`, `TranscriptOrder.RunApartExactly`.
  With carried segments about, each segment has to be looked at. `TranscriptOrder.OverlapAmongCarried`,
  `RuntimeCounterexamples.ApartUnspaced`. With one injection at a time there is no overlap.
  `TranscriptOrder.OneAtATimeSpaced`.
- A restart leaves the browser with partial segments that no final one will replace: the `Owed` of
  `RuntimeReplay.ReducersAgree`; `RuntimeCounterexamples.PartialStays`.
- A frame with an odd number of bytes is buffered and its level logged; the wake check that decodes it next
  raises, with the time of the check already set, and does so until the frame has left the last 1400 ms.
  `JarvisRuntimes.JarvisRuntime.IngestAudio`.
- An approval is carried out whatever the policy says by then, even that the capability is disabled; no other
  call writes then. `Invocations.DisabledExactly`, `CapabilityEngines.PolicyUnread`,
  `LateWrites.DisabledWrites`, `ConnectorCounterexamples.DisabledHappens`.
- `_propose_tool` names its caught exception after the `except` block, where Python has unbound it; so
  every planning error raises again, and the tool runner reports an unknown failure instead of the
  resolution the code means to ask for (src/jarvis_agent/application/capabilities.py:602-640). The model's
  planning tool has the one failure.
- A request without a confidence has 1.0 in its plan and counts as 0.0 for the threshold
  (src/jarvis_agent/application/capabilities.py:197 and 522). The model keeps the two apart.
- A non-positive `audio.buffer_ms` is stored before it is refused, and keeps a later process from starting
  (src/jarvis_agent/application/runtime.py:467-491 and 48-87). The model restarts only on a positive one.

## What is assumed

- Floating-point numbers are exact reals; Python's `round` is modelled with its ties to even, JavaScript's
  with its ties upwards.
- SHA-256 (FIPS 180-4, section 6.2) is injective, on contents and on approval tokens. Random ids are
  counters. Approval ids can be named only once the timeline has published them.
- A workbook is a list of sheets with a grid of cells, each with a value and a fill. What openpyxl stores on
  `save` is a parameter; theorems that need it to be what was put in say so (`SavesFaithfully`, `Calm`).
- Character tables (case, accents, white space) and `SequenceMatcher.ratio` are parameters of a `Lexicon`;
  `Unicode` lists the facts used, all of them about the letters of the status labels and the headers.
  Lower-casing works on one character at a time.
- Paths are resolved already; the temporary directory of a write is new.
- Another program does not touch a file between the steps of one write; between writes it may.
- Facts extracted from a segment, speaker features, recognised phrases, and whether a wake phrase is enrolled
  and heard are arbitrary. The wake detector raises exactly when a phrase is enrolled and one of the frames it
  is given has an odd number of bytes.

## Model

| member | source | states |
|---|---|---|
| AgentStates.RefusedExactly | src/jarvis_agent/domain/state_machine.py:8-29 | the table refuses exactly entering the error state from the two states that do not listen; any state can be switched off |
| AgentStates.PreviousSafeIsLastSafe | src/jarvis_agent/domain/state_machine.py:52-83 | over every run, `previous_safe_state` is the last non-error state visited, and outside the error state it is the state |
| AgentStates.RecoverLeavesErrorExactly | src/jarvis_agent/domain/state_machine.py:79-83 | `recover` leaves the error state exactly when the run has been in another state |
| AgentStates.AgentStateMachine.constructor | src/jarvis_agent/domain/state_machine.py:53-56 | starts as the model starts |
| AgentStates.AgentStateMachine.Transition | src/jarvis_agent/domain/state_machine.py:68-77 | moves by the table and reports the transition, or refuses and changes nothing |
| AgentStates.AgentStateMachine.Recover | src/jarvis_agent/domain/state_machine.py:79-83 | returns to the last safe state if the table allows it, and reports the transition or the refusal |
| AudioBuffer.FitIsLongestSuffix | src/jarvis_agent/application/audio.py:39-46 | what eviction leaves is a suffix that fits the capacity, and no longer suffix fits |
| AudioBuffer.FitOnline | src/jarvis_agent/application/audio.py:39-46 | evicting after every append is the same as evicting once over the whole history |
| AudioBuffer.RunIsOptimal | src/jarvis_agent/application/audio.py:39-50 | over every run the buffer is the longest fitting suffix of the frames since the last clear, its cached duration is the sum, and appended = held + dropped + cleared |
| AudioBuffer.RealTimeBound | src/jarvis_agent/application/audio.py:33-46 | at most `capacity_ms` frames; true audio at most capacity plus half a millisecond a frame, hence one and a half times the capacity |
| AudioBuffer.SamplesExactly | src/jarvis_agent/application/audio.py:33-37 | a frame's samples are the complete ones of each channel, two bytes to a sample; without a channel count there is one channel |
| AudioBuffer.SecondLasts | src/jarvis_agent/application/audio.py:33-37 | as many samples as the rate last 1000 ms |
| AudioBuffer.AudioRingBuffer.constructor | src/jarvis_agent/application/audio.py:25-31 | an empty buffer of positive capacity |
| AudioBuffer.AudioRingBuffer.Append | src/jarvis_agent/application/audio.py:39-46 | the evicting loop leaves exactly the longest fitting suffix; a zero sample rate is refused |
| AudioBuffer.AudioRingBuffer.Clear | src/jarvis_agent/application/audio.py:48-50 | empties the buffer, keeps the drop counter |
| AudioBuffer.AudioRingBuffer.Snapshot | src/jarvis_agent/application/audio.py:52-62 | the shortest suffix that lasts the requested time, or everything when the request covers the buffer |
| AudioBuffer.AudioRingBuffer.Stats | src/jarvis_agent/application/audio.py:64-71 | reports the true total duration, frame and drop counts |
| CaptureCodec.BinsTile | src/jarvis_agent/web/static/app.js:1315-1328 | bins are consecutive and disjoint, start at 0, leave out fewer than ratio/2 + 1 trailing samples, and are not empty when the rate goes down |
| CaptureCodec.BinsPlaced | src/jarvis_agent/web/static/app.js:1315-1328 | bin i begins less than a sample before i times the ratio; there are as many bins as the length at the new rate, to the nearest whole |
| CaptureCodec.SignalConserved | src/jarvis_agent/web/static/app.js:1318-1327 | bin means weighted by width add up to the samples covered |
| CaptureCodec.Downsample | src/jarvis_agent/web/static/app.js:1315-1328 | the loop computes the bin means, or hands back its input at equal rates |
| CaptureCodec.QuantiseError | src/jarvis_agent/web/static/app.js:1330-1337 | a sample there and back keeps its sign, never grows, and loses less than one step below zero and less than two above |
| CaptureCodec.QuantiseMonotone | src/jarvis_agent/web/static/app.js:1330-1337 | quantisation is monotone |
| CaptureCodec.FloatTo16BitPcm | src/jarvis_agent/web/static/app.js:1330-1337 | quantises every sample at its place |
| CaptureCodec.DecodesExactlyEven | src/jarvis_agent/application/audio.py:74-81 | a frame decodes exactly when its byte count is even, to half as many samples |
| CaptureCodec.DecodePcm16 | src/jarvis_agent/application/audio.py:74-81 | frames decode in order and are joined; one odd frame fails all |
| CaptureCodec.FrameRoundTrip | src/jarvis_agent/application/audio.py:74-81 | a frame decodes to exactly its quantised samples |
| CaptureCodec.CodecErrorBound | src/jarvis_agent/application/audio.py:74-81 | however a signal is cut into frames, it comes back clamped, in order, within 2/32768 |
| CaptureCodec.CaptureErrorBound | src/jarvis_agent/web/static/app.js:1315-1337 | every resampled bin's mean comes back within 2/32768 of its clamped value, at its own position |
| Diarization.MergeKeepsTotalExactly | src/jarvis_agent/application/diarization.py:67-79 | `merge` keeps the total count exactly when its two indices do not name one cluster |
| Diarization.NearestExactly | src/jarvis_agent/application/diarization.py:48-65 | a feature without a hint opens a cluster exactly when there is none, or every one is farther than the limit and there is room; otherwise it joins the nearest, the first of them, and moves no other; the answer names the cluster, its confidence being 1 less the distance, within 0.2 and 0.95 |
| Diarization.UnheardAnswers | src/jarvis_agent/application/diarization.py:36-47 | a hint wins and leaves the clusters alone, the same hint having the same speaker and a new one the next number; with neither hint nor feature the first cluster answers |
| Diarization.MergeMoves | src/jarvis_agent/application/diarization.py:67-79 | the target becomes the weighted mean with the count of both, the source goes, every other cluster stays, those behind it one place further up |
| Diarization.AssignConserves | src/jarvis_agent/application/diarization.py:30-65 | after `assign`, each count times its centroid is still the sum of its class of features |
| Diarization.MergeConserves | src/jarvis_agent/application/diarization.py:67-79 | after `merge`, index shift included, the same: the merged class is the union, and of two indices that name one cluster the class goes with it |
| Diarization.RunConserves | src/jarvis_agent/application/diarization.py:30-79 | over every run classes and lost features partition the assigned features plus the stand-ins; nothing is lost exactly when no merge named one cluster twice; at most one stand-in more than merges that left no cluster; centroids are class means; clusters stay within `max_speakers` |
| Diarization.HintsStable | src/jarvis_agent/application/diarization.py:36-43 | over every run, merges of all kinds included, distinct hints have distinct speakers, and nothing later moves a hint |
| Diarization.SimpleOnlineDiarizer.constructor | src/jarvis_agent/application/diarization.py:23-28 | starts without clusters and hints |
| Diarization.SimpleOnlineDiarizer.Assign | src/jarvis_agent/application/diarization.py:30-65 | joins the nearest cluster or opens one, and answers with its index and confidence, as Diarization.NearestExactly and UnheardAnswers tell |
| Diarization.SimpleOnlineDiarizer.Merge | src/jarvis_agent/application/diarization.py:67-79 | pools two clusters by weight and deletes the source; raises exactly on an index outside the list |
| EventStore.SelectedExactly | src/jarvis_agent/application/event_store.py:106-116 | the selection holds exactly the session's rows past the cursor |
| EventStore.ListedFirst | src/jarvis_agent/application/event_store.py:106-116 | a list of events is the first of the selection up to the limit, and all of a shorter one |
| EventStore.ExactDelivery | src/jarvis_agent/application/event_store.py:137-146 | over every run, yielded and waiting events strictly increase, and the events asked for split without overlap into yielded, waiting and missed: the overflow of the replay, those appended while it drained, those that found the queue full |
| EventStore.GapFreeExactly | src/jarvis_agent/application/event_store.py:137-146 | a subscription misses nothing exactly when the replay fitted, none slipped in before the queue was registered, and the queue was never full |
| EventStore.ReplayFromCursor | src/jarvis_agent/application/event_store.py:98-103 | a missed event can be fetched from the cursor exactly as long as no later one has been delivered; after one event through the queue, no overflow and no slipped one can, and one that found the queue full cannot once a later one has come through |
| EventStore.RunAccounted | src/jarvis_agent/application/event_store.py:74-146 | the bookkeeping of every run: what was delivered and waits is the replay and the kept rows since registration |
| EventStore.EventQueue.PutNowait | src/jarvis_agent/application/event_store.py:98-103 | a queue of 256 takes a row or drops it and says so |
| EventStore.EventLog.constructor | src/jarvis_agent/application/event_store.py:17-22 | an empty store |
| EventStore.EventLog.Append | src/jarvis_agent/application/event_store.py:74-104 | numbers and stores the row, and offers it once to every queue of the session and to no other |
| EventStore.EventLog.LatestSequence | src/jarvis_agent/application/event_store.py:118-124 | the greatest number of the session, 0 if it has none |
| EventStore.EventLog.SetSetting | src/jarvis_agent/application/event_store.py:148-159 | overwrites the one setting |
| EventStore.EventLog.GetSetting | src/jarvis_agent/application/event_store.py:161-164 | the stored value or the default |
| EventStore.Subscription.Next | src/jarvis_agent/application/event_store.py:137-144 | yields the replay, registers the queue once it is drained, then yields from the queue |
| EventStore.Subscription.Close | src/jarvis_agent/application/event_store.py:145-146 | the queue leaves its session's queues; no other session's change |
| Timeline.Drift | src/jarvis_agent/application/runtime.py:575-588 | how the projection of a prefix of the log stands to that of the whole: a later meeting, the same one as last ended, and longer by every segment or fact |
| Timeline.PrefixSufficesExactly | src/jarvis_agent/application/runtime.py:575-588 | a prefix gives the same projection exactly when nothing after it starts a meeting, ends a segment or finds a fact, and the last meeting ended after it, if any was, is the prefix's |
| Timeline.RedeliveryExactly | src/jarvis_agent/web/static/app.js:368-374 | delivering an event again is a no-op exactly when it is among the last 1200 |
| Timeline.BrowserKeepsLatest | src/jarvis_agent/web/static/app.js:368-374 | the browser remembers exactly the last 1200 events |
| RuntimeInvariants.Run | src/jarvis_agent/application/runtime.py:47-308 | in every reachable state, restarts included, machine state, session state, persisted state and last logged state coincide, MIC_OFF means an empty buffer, and outside the error state `previous_safe_state` is the state |
| RuntimeInvariants.SetStateCopies | src/jarvis_agent/application/runtime.py:145-184 | a change of state keeps the copies together; a rejected one changes nothing but the log |
| RuntimeInvariants.IngestedCopies | src/jarvis_agent/application/runtime.py:254-308 | so does a frame of audio, whatever the wake detector says, and if it raises |
| RuntimeEffects.EmittedSays | src/jarvis_agent/application/runtime.py:123-143 | an event gets the next number of the store and the meeting at hand, and changes nothing else |
| RuntimeEffects.WakeDecides | src/jarvis_agent/application/runtime.py:254-308 | a frame changes the agent's state exactly when a check is due, can decode and finds an enrolled phrase: from interactive to standby, from any other state to interactive; what is logged, and the time of the last check, in every case |
| RuntimeEffects.PatchSays | src/jarvis_agent/application/runtime.py:467-491 | a new buffer length is stored; a positive one starts an empty buffer and is logged |
| RuntimeEffects.RestartSays | src/jarvis_agent/application/runtime.py:48-87 | a process starts in the stored state or with the microphone off, with an empty buffer of the stored length, nothing suspended, and the projection of the first 10000 events |
| RuntimeEffects.MeetingStartSays | src/jarvis_agent/application/runtime.py:189-224 | without an active meeting a new one begins, and an agent on standby transcribes; with one nothing happens; what is logged |
| RuntimeEffects.MeetingEndSays | src/jarvis_agent/application/runtime.py:226-252 | the meeting is summed up and closed, transcript and facts stay, and an agent that transcribes or interacts goes to standby; what is logged |
| RuntimeEffects.AllCounted | src/jarvis_agent/profiles/meeting.py:89-97 | the summary of a transcript of final segments counts them all |
| RuntimeEffects.PartialSays | src/jarvis_agent/adapters/transcription.py:34-42 | a partial segment has half the words, but at least one, and starts 50 ms after the transcript ends; the final one will last 160 ms a word, at least 600 |
| RuntimeEffects.PhrasesSay | src/jarvis_agent/application/runtime.py:396-402 | the waking words take an agent from standby to interactive, the others one that is interactive by then back |
| RuntimeEffects.FinishSays | src/jarvis_agent/application/runtime.py:350-422 | resuming an injection adds its final segment, the facts found in it in order, and then what the words and the routing bring |
| RuntimeReplay.LiveRefinesReplay | src/jarvis_agent/application/runtime.py:189-252 | at every scheduling point of every interleaving whose restarts read the whole log, the live projection is the fold over the log, belongs to the current meeting, and every fact cites a final segment in the transcript |
| RuntimeReplay.ReducersAgree | src/jarvis_agent/web/static/app.js:368-469 | on every log reached by restarts that read it whole, the browser's final segments, in map order, are the server's transcript; facts, meeting and state agree; partial segments remain exactly for suspended or cut injections of the meeting |
| RuntimeReplay.RunExact | src/jarvis_agent/application/runtime.py:340-395 | the invariant behind both, over every run whose restarts read the whole log |
| RuntimeContents.RunTold | src/jarvis_agent/application/runtime.py:340-395 | over every run: a partial segment has the first half of the words given to its injection, a final one the whole text, both its speaker; the facts that cite a final segment are what was found in it, all and in order |
| RuntimeContents.LiveTold | src/jarvis_agent/application/runtime.py:340-395 | so in every run every live segment has the text and the speaker of its injection, and every live fact is a finding in the injection of the segment it cites |
| RuntimeContents.FactsInOrder | src/jarvis_agent/application/runtime.py:383-395 | while restarts read the whole log, the live facts that cite a live segment are its injection's findings, all and in order |
| RuntimeRestarts.RebuiltExactly | src/jarvis_agent/application/runtime.py:575-588 | in every run, whatever earlier restarts read, a rebuild gives the live projection exactly when no event past the first 10000, and since the last restart, starts a meeting, ends a segment or finds a fact, and the last meeting ended among these, if any was, is the rebuilt one |
| RuntimeRestarts.RunRecalls | src/jarvis_agent/application/runtime.py:575-588 | the invariant behind it: in every run the live projection is the fold over the events last rebuilt from and those since |
| LiveScreens.SentExactly | src/jarvis_agent/application/event_store.py:137-146 | what a subscription has yielded and what waits is the session's table past the cursor, in order, exactly when it has missed nothing |
| LiveScreens.GapFreeMirrors | src/jarvis_agent/web/api.py:296-303 | a browser that subscribes past its cursor and has missed nothing shows what the log itself would have shown it, up to the events that wait |
| LiveScreens.SubscribedMirrors | src/jarvis_agent/web/static/app.js:335-374 | with nothing waiting it mirrors the server, over every run: transcript, facts, meeting and state |
| TranscriptOrder.OverlapExactly | src/jarvis_agent/application/runtime.py:350-371 | with no overlap so far and no segment carried over, resuming any suspended injection makes none exactly when it starts after the last segment ended; one of this meeting, exactly when an injection begun now would start at the same time |
| TranscriptOrder.OverlapAmongCarried | src/jarvis_agent/application/runtime.py:350-371 | the same with carried segments about, segment by segment: resuming an injection makes no overlap exactly when it lies clear of each |
| TranscriptOrder.RunApartExactly | src/jarvis_agent/application/runtime.py:340-382 | over every run that carries no injection into another meeting, no two segments overlap exactly when each started where the transcript ended when it joined |
| TranscriptOrder.SpacedExactly | src/jarvis_agent/application/runtime.py:350-371 | resuming an injection of this meeting keeps segments in order, 50 ms or more apart, exactly when an injection begun now would start at the same time |
| TranscriptOrder.OneAtATimeSpaced | src/jarvis_agent/application/runtime.py:340-382 | while no injection begins during another, segments are in order, 50 ms or more apart, and never overlap, whatever meetings begin and end |
| JarvisRuntimes.JarvisRuntime.constructor | src/jarvis_agent/application/runtime.py:48-87 | a process started on a store is the restart of the one that left it |
| JarvisRuntimes.JarvisRuntime.RebuildProjection | src/jarvis_agent/application/runtime.py:575-588 | the loop computes the fold over the first 10000 events |
| JarvisRuntimes.JarvisRuntime.Emit | src/jarvis_agent/application/runtime.py:123-143 | logs the event under the next number and the current meeting |
| JarvisRuntimes.JarvisRuntime.SetState | src/jarvis_agent/application/runtime.py:145-184 | the whole new state of a change or a rejection |
| JarvisRuntimes.JarvisRuntime.StartMeeting | src/jarvis_agent/application/runtime.py:189-224 | begins a meeting unless one is active, and moves to transcribing from standby |
| JarvisRuntimes.JarvisRuntime.EndMeeting | src/jarvis_agent/application/runtime.py:226-252 | logs summary and end, closes the meeting, returns to standby |
| JarvisRuntimes.JarvisRuntime.IngestAudio | src/jarvis_agent/application/runtime.py:254-308 | gating by state, cooldown, 900 ms of audio and 400 ms between checks, and the state it ends in, as RuntimeEffects.WakeDecides tells; what it leaves when the frame has no sample rate or the detector cannot decode the last 1400 ms |
| JarvisRuntimes.JarvisRuntime.DetectorRaises | src/jarvis_agent/application/wake.py:149-157 | with a phrase enrolled, raises exactly when a frame among the last 1400 ms has an odd number of bytes |
| JarvisRuntimes.JarvisRuntime.UpdateBufferMs | src/jarvis_agent/application/runtime.py:467-491 | stores the setting first, then replaces the buffer or fails |
| JarvisRuntimes.JarvisRuntime.PatchSettings | src/jarvis_agent/web/api.py:156-164 | the request that does so logs the change, unless the buffer was refused |
| JarvisRuntimes.JarvisRuntime.InjectUntilYield | src/jarvis_agent/application/runtime.py:340-382 | the first half of an injection, up to its suspension |
| JarvisRuntimes.JarvisRuntime.InjectAfterYield | src/jarvis_agent/application/runtime.py:351-422 | the second half, which reads the meeting again; what it adds is in RuntimeEffects.FinishSays |
| Lexicons.LabelRoundTrip | src/jarvis_agent/connectors/excel_roadmap.py:30-55 | every label that is written parses to its own status |
| Lexicons.StatusIsNoHeader | src/jarvis_agent/connectors/excel_roadmap.py:30-66 | a text that parses as a status is never a header |
| Lexicons.HeadersDisjoint | src/jarvis_agent/connectors/excel_roadmap.py:62-66 | no text heads both the status column and another |
| Lexicons.HeaderNormal | src/jarvis_agent/connectors/excel_roadmap.py:470-474 | every header alias normalises to its plain form |
| Workbooks.SchemaAtApart | src/jarvis_agent/connectors/excel_roadmap.py:126-158 | a schema's status column is none of its other columns |
| Workbooks.ItemOrigin | src/jarvis_agent/connectors/excel_roadmap.py:160-204 | every item read comes from a row below the header, with the status and colour of its cell |
| Workbooks.EditRecognised | src/jarvis_agent/connectors/excel_roadmap.py:126-204 | after a status edit the search finds the same schema and the same rows, up to that one status and colour |
| RoadmapReading.SchemaMeaning | src/jarvis_agent/connectors/excel_roadmap.py:126-158 | a row heads a roadmap exactly when it has an action and a status column; each role's column has the role's text that appears first in the row, and is the last to have it; owner, month and id only if the row has one |
| RoadmapReading.DetectedExactly | src/jarvis_agent/connectors/excel_roadmap.py:126-158 | a schema is found exactly when one place, in the first twelve rows of the sheets whose title has the hint, heads a roadmap |
| RoadmapReading.TextsRead | src/jarvis_agent/connectors/excel_roadmap.py:160-172 | an empty cell and a zero have no text; a row without an action is no item |
| RoadmapReading.ItemsExactly | src/jarvis_agent/connectors/excel_roadmap.py:160-204 | the items are exactly the rows below the header with an action and a recognised status, each saying what the cells of its columns do |
| RoadmapReading.ItemsInOrder | src/jarvis_agent/connectors/excel_roadmap.py:160-204 | in row order, no row twice |
| RowMatching.DecideMeaning | src/jarvis_agent/connectors/excel_roadmap.py:223-231 | a row is returned exactly when it reaches the threshold and beats every other by the margin; none exactly when all miss the threshold |
| RowMatching.OrderIrrelevant | src/jarvis_agent/connectors/excel_roadmap.py:206-231 | row and kind of failure are the same under every permutation of the rows, clamped ties included |
| RowMatching.StatusIrrelevant | src/jarvis_agent/connectors/excel_roadmap.py:206-231 | status and colour play no part in the match |
| RowMatching.SimilarityLaws | src/jarvis_agent/connectors/excel_roadmap.py:459-467 | the similarity lies in 0 to 1; 1 for the same words, below the threshold for texts that share no word and do not contain one another, at least 0.35 for the same set of words |
| RowMatching.AttributesCount | src/jarvis_agent/connectors/excel_roadmap.py:214-222 | an owner or a month that agrees never lowers the score and one that differs never raises it; what only one side names does not count |
| RowMatching.OwnerDecides | src/jarvis_agent/connectors/excel_roadmap.py:218-219 | of two rows that differ in their owner the one asked for never scores lower, and 0.13 higher where nothing is cut off |
| RowMatching.MonthDecides | src/jarvis_agent/connectors/excel_roadmap.py:220-221 | the same of the month, by 0.09 |
| RowMatching.SortedSorts | src/jarvis_agent/connectors/excel_roadmap.py:223-223 | the sort gives a descending permutation |
| RowMatching.SortedTop | src/jarvis_agent/connectors/excel_roadmap.py:223-231 | its first two are the best and the runner-up |
| RowMatching.ScoreRow | src/jarvis_agent/connectors/excel_roadmap.py:216-222 | the similarity with its adjustments, clamped to between 0 and 1 |
| RowMatching.ScoreRows | src/jarvis_agent/connectors/excel_roadmap.py:214-222 | every row with its score, in order |
| RowMatching.MatchRowBySorting | src/jarvis_agent/connectors/excel_roadmap.py:206-231 | sorting and looking at the first two decides as `MatchRow` does without sorting |
| FileWrites.WriteAtomic | src/jarvis_agent/connectors/excel_roadmap.py:324-399 | wherever a write stops, the file holds the old or the verified new content, the latter only with a backup, and no other file has changed |
| FileWrites.WriteEnds | src/jarvis_agent/connectors/excel_roadmap.py:327-399 | how each end leaves the store |
| FileWrites.WriteFiles | src/jarvis_agent/connectors/excel_roadmap.py:324-399 | which files exist after each end; an existing backup is left as it is |
| RoadmapConnector.ProposalGrounded | src/jarvis_agent/connectors/excel_roadmap.py:233-264 | what a proposal says of its status cell is true of the content it fingerprints |
| RoadmapReading.ProposalExactly | src/jarvis_agent/connectors/excel_roadmap.py:206-264 | which answer propose gives: no single schema, no row that reaches 0.62, rows too close, or the row that reaches it and beats every other by 0.08, with its place, status and colour before and the desired ones after |
| RoadmapReading.ApplyAnswers | src/jarvis_agent/connectors/excel_roadmap.py:266-399 | what apply answers below the root, for every guard, fault and save |
| RoadmapReading.RootGuarded | src/jarvis_agent/connectors/excel_roadmap.py:102-114 | outside the root nothing is proposed, written, restored or discovered |
| RoadmapReading.RollbackExactly | src/jarvis_agent/connectors/excel_roadmap.py:438-451 | a rollback goes through exactly when the backup exists and both paths are below the root, and restores the target alone |
| RoadmapConnector.NewContentFacts | src/jarvis_agent/connectors/excel_roadmap.py:327-349 | the edit changes the value and fill of one cell, passes the verification, and differs unless already applied |
| RoadmapConnector.PreviewedIsWritten | src/jarvis_agent/connectors/excel_roadmap.py:233-349 | what was previewed is what is written |
| RoadmapConnector.FaultAtomic | src/jarvis_agent/connectors/excel_roadmap.py:324-399 | wherever `apply` stops, old content or verified new content with a backup of the old |
| RoadmapConnector.FailureLeavesWorkbookExactly | src/jarvis_agent/connectors/excel_roadmap.py:349-397 | a failure leaves the file alone exactly when the write was not stopped after its replacement |
| RoadmapConnector.DeathLeavesCandidateExactly | src/jarvis_agent/connectors/excel_roadmap.py:325-349 | a process that dies leaves one more workbook to be discovered exactly between the first copy and the replacement, or the verification if that would have failed |
| RoadmapConnector.SuccessWrites | src/jarvis_agent/connectors/excel_roadmap.py:324-393 | a success that is no no-op puts the saved content in place, makes the backup, and reports both versions |
| RoadmapConnector.Idempotent | src/jarvis_agent/connectors/excel_roadmap.py:113-323 | after a successful write the same files are discovered, the same schema, rows and row found, the change reported as applied, and applying it again changes no file |
| ExcelConnector.ReadHeaders | src/jarvis_agent/connectors/excel_roadmap.py:133-137 | the loop over a row's cells builds the header map, the last of equal keys winning |
| ExcelConnector.SearchSheet | src/jarvis_agent/connectors/excel_roadmap.py:132-151 | the candidates of the first twelve rows of a sheet, in order |
| ExcelConnector.DetectSchemaIn | src/jarvis_agent/connectors/excel_roadmap.py:126-158 | the one candidate of all hinted sheets, or how many there were |
| ExcelConnector.ReadItemsIn | src/jarvis_agent/connectors/excel_roadmap.py:160-204 | the items of all rows below the header, in order |
| ExcelConnector.ExcelRoadmapConnector.ProposeChange | src/jarvis_agent/connectors/excel_roadmap.py:233-264 | answers as `Propose` and writes nothing |
| ExcelConnector.ExcelRoadmapConnector.TrySteps | src/jarvis_agent/connectors/excel_roadmap.py:327-393 | step after step, the store is the stage at which the write ends |
| ExcelConnector.ExcelRoadmapConnector.Apply | src/jarvis_agent/connectors/excel_roadmap.py:266-399 | guards, write and clean-up leave the store and the answer of `Applied` |
| ExcelConnector.ExcelRoadmapConnector.Rollback | src/jarvis_agent/connectors/excel_roadmap.py:438-451 | copies the backup over its target, or fails and changes nothing |
| Undo.RunTraced | src/jarvis_agent/connectors/excel_roadmap.py:324-348 | over every run of writes and rollbacks, where every backup file comes from |
| Undo.EveryVersionRestorable | src/jarvis_agent/connectors/excel_roadmap.py:324-451 | every `rollback_ref` ever returned still holds what preceded its write, so rolling back to any of them restores that version |
| Lifecycle.LanguageFacts | src/jarvis_agent/application/capabilities.py:139-300 | in every word of the language: at most one approval, one grant or rejection, one execution; none after a disabled evaluation |
| Lifecycle.TallyDetermined | src/jarvis_agent/application/capabilities.py:139-401 | the state a word leads to fixes how often it asks, grants, rejects and executes |
| Lifecycle.LifecycleGrammar | src/jarvis_agent/application/capabilities.py:139-401 | in every interleaving the log of every request is a prefix of a word of the language, and a whole word once it has ended |
| Lifecycle.RunWellformed | src/jarvis_agent/application/capabilities.py:116-401 | the invariant behind it: where each request stands is where its log stands, and an open approval is one its request waits for |
| Justification.EveryWriteJustified | src/jarvis_agent/application/capabilities.py:167-264 | in every interleaving an invocation of the apply tool comes after an automatic evaluation at or above the threshold and no approval, or after exactly one grant with the approval's token before its expiry; one per request, none after a disabled evaluation |
| Justification.RunReasoned | src/jarvis_agent/application/capabilities.py:167-264 | the invariant behind it: every reason a request holds is true of the log and of its approval |
| Justification.OnlyApplyWrites | src/jarvis_agent/application/tools.py:51-180 | only an invocation of the apply tool, another program or a rollback changes a file |
| Justification.RunCarry | src/jarvis_agent/application/capabilities.py:429-495 | every proposal that a request or an approval carries comes from the planning tool and is true of the content it fingerprints |
| Justification.WritesArePreviewed | src/jarvis_agent/application/capabilities.py:314-346 | in every run, external edits included, a request that changes its workbook changes exactly what its proposal showed |
| Journal.WritesJournal | src/jarvis_agent/connectors/excel_roadmap.py:273-393 | in every interleaving the diffs written, in order, chain from the first content of every workbook to its current one |
| Journal.AuditLogIsRedoJournal | src/jarvis_agent/application/capabilities.py:361-401 | the diffs of the `artifact.created` events, in log order, do so too, and redone in that order yield the current content |
| Journal.RunBooked | src/jarvis_agent/application/capabilities.py:361-401 | the log tells of every write, but for at most the last |
| Journal.StaleProposalRefused | src/jarvis_agent/connectors/excel_roadmap.py:273-280 | of many approvals prepared from one version, once one has written the others are refused and change nothing |
| CapabilityEngines.PolicyUnread | src/jarvis_agent/application/capabilities.py:237-283 | what becomes of a request past its evaluation does not depend on the policy |
| CapabilityEngines.DrivenReaches | src/jarvis_agent/application/event_store.py:74-104 | running one request to its end, as the program does because `append` never suspends, is a run with one writer |
| CapabilityEngines.EngineJournaled | src/jarvis_agent/application/capabilities.py:89-401 | between the calls of an engine, however it was called, its log is a redo journal of every workbook, and the log of every request is a whole word or stops at an open question |
| CapabilityEngines.CapabilityEngine.constructor | src/jarvis_agent/application/capabilities.py:90-93 | no approvals, no events |
| CapabilityEngines.CapabilityEngine.Append | src/jarvis_agent/application/event_store.py:74-104 | one event of one request, and the machine's step |
| CapabilityEngines.CapabilityEngine.InvokePropose | src/jarvis_agent/application/tools.py:51-180 | the planning tool between its two events |
| CapabilityEngines.CapabilityEngine.InvokeApply | src/jarvis_agent/application/tools.py:51-180 | the apply tool between its two events; an exception becomes a failure |
| CapabilityEngines.CapabilityEngine.EmitResult | src/jarvis_agent/application/capabilities.py:361-401 | plan completed and artifact created, or plan failed |
| CapabilityEngines.CapabilityEngine.Execute | src/jarvis_agent/application/capabilities.py:497-512 | the apply tool and its result; the store and the answer are those of `Applied` |
| CapabilityEngines.CapabilityEngine.CreateApproval | src/jarvis_agent/application/capabilities.py:302-359 | a new single-use approval of fifteen minutes, with the hash of its token, then its event |
| CapabilityEngines.CapabilityEngine.Resolve | src/jarvis_agent/application/capabilities.py:455-474 | the workbook named, or the only one discovered |
| CapabilityEngines.CapabilityEngine.Plan | src/jarvis_agent/application/capabilities.py:429-495 | validation, discovery and the planning tool, up to the plan |
| CapabilityEngines.CapabilityEngine.DecideOn | src/jarvis_agent/application/capabilities.py:185-235 | disabled exactly under a disabled policy; asks exactly under a manual one or an automatic one whose threshold is above the confidence; otherwise executes; what the answer says of the proposal and the files |
| CapabilityEngines.CapabilityEngine.Request | src/jarvis_agent/application/capabilities.py:116-235 | leaves the engine where the machine is when the new request waits or has ended; planning fails exactly when there is no proposal, and otherwise the policy set, manual if none is, decides as in DecideOn; an approval lasts 900 s |
| CapabilityEngines.CapabilityEngine.Approve | src/jarvis_agent/application/capabilities.py:237-283 | executes exactly when the approval is known, unused, unexpired and the token is its own; otherwise changes nothing but the expiry |
| CapabilityEngines.CapabilityEngine.Reject | src/jarvis_agent/application/capabilities.py:285-300 | uses up an open approval and logs it, or changes nothing |
| CapabilityEngines.CapabilityEngine.SetPolicy | src/jarvis_agent/application/capabilities.py:102-114 | stores the policy, then logs it |
| Invocations.InvokesExactly | src/jarvis_agent/application/capabilities.py:116-300 | between calls, under every policy: a call invokes the apply tool, once, exactly when it requests a change that can be planned under an automatic policy whose threshold, if any, the confidence reaches, a missing one being 0, or approves what can be granted; every other call changes no file |
| Invocations.TargetExactly | src/jarvis_agent/application/capabilities.py:455-474 | a request that names no workbook is about the one discovered, and about none when there are more or fewer |
| Invocations.DisabledExactly | src/jarvis_agent/application/capabilities.py:185-283 | while the capability is disabled, exactly when it approves what can be granted |
| Invocations.Serve | src/jarvis_agent/application/capabilities.py:102-300 | the engine's methods leave the states that these are about |
| Counterexamples.RecoverStuck | src/jarvis_agent/domain/state_machine.py:52-83 | a machine started in the error state is in it after `recover` |
| Counterexamples.MergeForgets | src/jarvis_agent/application/diarization.py:67-79 | of two speakers heard once each, merging -1 into 1 leaves a total count of one |
| Counterexamples.EventSlips | src/jarvis_agent/application/event_store.py:137-146 | a subscription that never hears an event appended before its queue was registered |
| RuntimeCounterexamples.SegmentsOverlap | src/jarvis_agent/application/runtime.py:350-371 | a run in which two injections at once give two segments that start together and overlap |
| RuntimeCounterexamples.CarriedOverlaps | src/jarvis_agent/application/runtime.py:350-371 | a run in which an injection carried into the next meeting overlaps its first segment |
| RuntimeCounterexamples.ApartUnspaced | src/jarvis_agent/application/runtime.py:350-371 | a run in which a carried injection leaves segments out of order without any overlap |
| RuntimeCounterexamples.PartialStays | src/jarvis_agent/web/static/app.js:368-469 | a run in which a restart leaves a partial segment on the screen and no injection suspended |
| RuntimeCounterexamples.EndForgotten | src/jarvis_agent/application/runtime.py:575-588 | a run after which a rebuild has the ended meeting active |
| RuntimeCounterexamples.EndMatters | src/jarvis_agent/application/runtime.py:575-588 | a log on which only the end of a meeting tells the prefix from the whole |
| RuntimeCounterexamples.OldEventAgain | src/jarvis_agent/web/static/app.js:368-374 | a log of 1201 events whose first changes the browser when delivered again |
| ConnectorCounterexamples.FailureChanges | src/jarvis_agent/connectors/excel_roadmap.py:349-397 | whenever only the preview after the replacement raises, the call answers a failure and the workbook has changed |
| ConnectorCounterexamples.FailureHappens | src/jarvis_agent/connectors/excel_roadmap.py:349-397 | one proposal on one roadmap on which that happens |
| ConnectorCounterexamples.DeathLeavesCopy | src/jarvis_agent/connectors/excel_roadmap.py:325-349 | whenever a process dies after the first copy, the copy is discovered, and was not before |
| ConnectorCounterexamples.DeathHappens | src/jarvis_agent/connectors/excel_roadmap.py:325-349 | one proposal on one roadmap on which that happens |
| LateWrites.DisabledWrites | src/jarvis_agent/application/capabilities.py:237-283 | whenever a change can be proposed and written, a run in which it is written while its capability is disabled |
| ConnectorCounterexamples.DisabledHappens | src/jarvis_agent/application/capabilities.py:237-283 | such a run on one roadmap |
| SampleRoadmap.Proposable | src/jarvis_agent/connectors/excel_roadmap.py:233-264 | a roadmap on which schema, row and proposal are found |

## Left out

- FastAPI routes, WebSockets, HTML, DOM rendering and microphone capture: input, output and user interface.
- The provider manager, the OpenAI adapters and the diagnostics: network clients.
- `spectral_feature`, `_resample_linear`, `audio_feature`, `calculate_level`: signal processing in floating point; wake decisions and speaker features are arbitrary here, but for frames that cannot be decoded.
- `parse_roadmap_update` and the patterns of `MeetingExtractor.extract`: regular expressions; what they find is arbitrary, but for the segment a fact cites.
- The browser's first load (src/jarvis_agent/web/static/app.js:286-296): it applies the first 5000 events and then subscribes past the latest. LiveScreens starts from a browser that has applied every event up to its cursor.
- SQLite, pydantic, base64, the event validator, redaction, previews of a workbook, artifact ids, plans and their steps, summaries and diagnostics texts.
- Registries, settings other than `audio.buffer_ms`, provider settings, listing and deleting sessions.
- The order in which `discover` lists workbooks: a set, because only its size and its one member matter.
- The order of the two waiting tasks at a lock: `append` never suspends inside its lock, so no two of them wait.
- Exceptions of `apply` before its `try` block (`mkdtemp`, reading the file for its fingerprint): they reach the tool runner, change nothing, and end as an unknown failure, as the model's first fault does.
- A process that dies inside a capability request, and the approvals a restart forgets: `Capabilities` leaves them out; deaths within a write are in `FileWrites` and `RoadmapConnector`.
- Malformed payloads that make the plan itself raise, such as a confidence outside 0 to 1.
- Justification.EveryWriteJustified: proved of the apply invocations of the engine; the other callers of the connector are not part of this model.
- Justification.WritesArePreviewed: for saves that store what was put in; for any other save the content written is what was saved and verified (RoadmapConnector.ChangedByWrite).
- Journal.AuditLogIsRedoJournal: asks that no request invokes the apply tool while another has still to log what it wrote. With a pause at every await two requests could log in the other order; the program's `append` does not pause, and CapabilityEngines.DrivenReaches proves that its schedules meet the condition. Journal.WritesJournal needs no such condition.
- Journal.AuditLogIsRedoJournal and Undo.EveryVersionRestorable speak of workbooks with an extension that openpyxl opens; backups are none.
- Undo.EveryVersionRestorable: assumes that eight digits of the fingerprint tell apart the versions of one workbook in the run, and that backup files from before hold what their names say.
- RuntimeReplay.LiveRefinesReplay: over runs whose restarts read the whole log; for the others RuntimeRestarts.RunRecalls says what the live projection comes from, and RuntimeRestarts.RebuiltExactly when a restart recovers it.
- RoadmapConnector.FaultAtomic: the backup holds the old content unless a file of its name was there before with something else in it; the code does not look into it.
- `_normalize` is not idempotent in general, because it lower-cases before it decomposes; the proofs use it on the status and header texts only.

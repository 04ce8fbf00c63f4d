# Voice assistant of the legado reader, modelled in Dafny

This project models the voice-assistant core of the legado Android e-book reader. The core has these parts:

- **The speech service (`VoiceAssistantService`).** It drives a streaming speech-recognition engine.
  - Its engine session is a set of flags changed by start, stop, toggle and destroy, and by the engine's messages.
  - A recorder thread reads the microphone and packs the audio into packages of about 100 ms, which it feeds to the engine.
  - A filter picks the transcript out of each recognition result.
  - A keyword classifier turns a final transcript into a reader command.
- **The standalone microphone recorder (`AudioRecorder`).** Its read loop reports a 0-9 volume level for each chunk and then hands over the chunk.
- **The tool-call protocol (`ToolCall`).** The chat model uses it to control read-aloud: a fixed catalog of eight tools, the JSON form of a call's arguments, and name-to-action dispatch.
- **The chat-model service (`LLMAssistantService`).** A session gate keyed by a user tag.
- **The `LLMAssistant` singleton.** It accumulates the streamed answer.
- **The `VoiceAssistant` and `ASRAssistant` singletons.** Each has a recording toggle, context registration, and forwarding of results.
- **The assistant screen (`VoiceAssistantActivity`, `VoiceAssistantViewModel`).** It holds the chat message list and the routing of recognition results into it.

Each part is modelled in the form the source uses:

- Pure expressions are datatypes and functions. Examples are the classifier, the result filter, the argument codec, the catalog and dispatch, and the level mapping.
- Objects whose fields are updated in place are classes with `modifies` clauses. Examples are the speech service, the recorder object, the singletons, the session gate, the view model and the screen.
- The loops of the source are methods with loop invariants. Each is proved against a specification function:
  - `FramePackaging.RecordAndFeed` against `Captured`/`Flatten` and the package list `Packages`;
  - `MicRecorder.ReadLoop` against `Deliveries`;
  - `AudioLevels.SumOfSquares` against `Squares`, with the corrected signed decoding of the samples.

Platform and SDK calls are parameters of the operations that make them:

- engine return codes;
- what the microphone's `read` calls return;
- what `arun` returns;
- whether the record permission is granted;
- the square root and decimal logarithm, which are floating-point work.

What the code hands to the outside world is appended to a log field, and the contracts state that log. This covers listener callbacks, events posted on the event bus, directives, intents started, and recorder stop/release.

Some facts about the code shape the model:

- **Sample decoding.** 16-bit PCM samples are signed, but `AudioRecorder.kt:69-70` decodes them unsigned. `AudioLevels.UnsignedSample` and `AudioLevels.WrappedSquareSum` model the code as written; the rest of the model uses the signed decoding. See the findings below.
- **Volume level.** The level is truncated by `toInt`. `AudioLevels.Level` truncates, which on the clamped, non-negative value is the floor.
- **Listeners.** A single registered activity is kept, and its type is tested before a result is forwarded. `Contexts.Registration` keeps one activity and one service context.
- **Message status.** The screen builds its messages as `ChatMessage(text, true)`, but the record has a required `status` field. The model does not invent a value: the message status is a parameter of `ChatMessages.ChatScreen.OnResult` and `ChatMessages.ChatScreen.Send`.

## Model

Source paths are relative to the repository root.

| member | source | states |
|---|---|---|
| Text.Lowercase | app/src/main/java/io/legado/app/service/VoiceAssistantService.kt:492 | `lowercase()` on the ASCII capitals: same length, no capital left, each capital becomes its small letter, every other character unchanged |
| Text.SkipLeading | app/src/main/java/io/legado/app/service/VoiceAssistantService.kt:492 | the index of the first non-whitespace character from a position on, everything skipped being whitespace |
| Text.SkipTrailing | app/src/main/java/io/legado/app/service/VoiceAssistantService.kt:492 | the end of a range once its trailing whitespace is dropped, everything dropped being whitespace |
| Text.TrimmedIsFixed | app/src/main/java/io/legado/app/service/VoiceAssistantService.kt:492 | a string with non-whitespace ends is its own trim |
| Text.Trim | app/src/main/java/io/legado/app/service/VoiceAssistantService.kt:492 | `trim()` removes the longest whitespace prefix and suffix: the result is a slice of the input with non-whitespace ends, empty exactly when the input is blank |
| Text.ContainsAt | app/src/main/java/io/legado/app/service/VoiceAssistantService.kt:495-505 | `contains` holds exactly when the keyword occurs at some position |
| Text.TrimIdempotent | app/src/main/java/io/legado/app/service/VoiceAssistantService.kt:492 | trimming a trimmed string changes nothing |
| Text.LowercaseTrim | app/src/main/java/io/legado/app/service/VoiceAssistantService.kt:492 | lower-casing commutes with trimming, because lower-casing keeps whitespace |
| VoiceCommands.Normalize | app/src/main/java/io/legado/app/service/VoiceAssistantService.kt:492 | the normalised text has no ASCII capital and no whitespace at either end, and is empty exactly when the transcript is blank |
| VoiceCommands.Classify | app/src/main/java/io/legado/app/service/VoiceAssistantService.kt:494-507 | the command returned is one whose keyword rule holds, and no rule ranked before it holds |
| VoiceCommands.ParseAndDispatch | app/src/main/java/io/legado/app/service/VoiceAssistantService.kt:491-510 | the listener gets the normalised text and the first command, in rule order, whose rule holds on that text |
| VoiceCommands.LowercaseBlank | app/src/main/java/io/legado/app/service/VoiceAssistantService.kt:492 | lower-casing keeps a transcript blank or non-blank |
| VoiceCommands.NoCapitalsAfterTrim | app/src/main/java/io/legado/app/service/VoiceAssistantService.kt:492 | trimming a text without ASCII capitals leaves none |
| VoiceCommands.ClassifyFirstMatch | app/src/main/java/io/legado/app/service/VoiceAssistantService.kt:494-507 | the classifier returns a command exactly when that command's keyword rule holds and no rule ranked before it holds (PLAY, PAUSE, NEXT, PREV, SPEED_UP, SPEED_DOWN, VOLUME_UP, VOLUME_DOWN, BOOKMARK, SETTINGS, SEARCH) |
| VoiceCommands.TextInputIsFallThrough | app/src/main/java/io/legado/app/service/VoiceAssistantService.kt:506 | TEXT_INPUT is returned exactly when no keyword rule holds |
| VoiceCommands.VolumeNeedsBothKeywords | app/src/main/java/io/legado/app/service/VoiceAssistantService.kt:501-502 | VOLUME_UP needs both "音量" and "大"; VOLUME_DOWN needs both "音量" and "小"; without "音量" neither is returned |
| VoiceCommands.NormalizeIdempotent | app/src/main/java/io/legado/app/service/VoiceAssistantService.kt:492 | lower-casing and trimming twice equals doing it once |
| VoiceCommands.DispatchStable | app/src/main/java/io/legado/app/service/VoiceAssistantService.kt:491-510 | the text handed to the listener, dispatched again, yields the same command and text |
| VoiceCommands.DispatchFirst | app/src/main/java/io/legado/app/service/VoiceAssistantService.kt:491-510 | a normalised text whose rule for a command holds, and in which no earlier rule can hold, dispatches to that command with the text unchanged |
| VoiceCommands.PlayBeforePause | app/src/main/java/io/legado/app/service/VoiceAssistantService.kt:495-496 | "停止播放" gives PLAY_AUDIO, because the play rule is ranked before the pause rule |
| VoiceCommands.PlayExample | app/src/main/java/io/legado/app/service/VoiceAssistantService.kt:495 | "请播放" gives PLAY_AUDIO |
| VoiceCommands.BookmarkBeforeSettings | app/src/main/java/io/legado/app/service/VoiceAssistantService.kt:503-504 | "设置书签" gives ADD_BOOKMARK, not OPEN_SETTINGS |
| VoiceCommands.NextChapterExample | app/src/main/java/io/legado/app/service/VoiceAssistantService.kt:497 | "下一章" gives NEXT_CHAPTER |
| VoiceCommands.VolumeUpExample | app/src/main/java/io/legado/app/service/VoiceAssistantService.kt:501 | "音量大一点" gives VOLUME_UP |
| VoiceCommands.FreeTextExample | app/src/main/java/io/legado/app/service/VoiceAssistantService.kt:506 | text with no keyword gives TEXT_INPUT with the text unchanged |
| SpeechResults.ParseSpeechResult | app/src/main/java/io/legado/app/service/VoiceAssistantService.kt:465-487 | the listener is called exactly when the body is JSON with a non-empty "result" array whose first element has a non-empty text; it gets that text, the request id only for a final result with "reqid", and the classified command only for a final result |
| SpeechResults.PartialResultsAreDisplayOnly | app/src/main/java/io/legado/app/service/VoiceAssistantService.kt:476-482 | a partial result never carries a request id and is never classified |
| EngineSession.ErrorText | app/src/main/java/io/legado/app/service/VoiceAssistantService.kt:433-444 | the error reported for an engine error message is its "err_msg" when present, else the raw message |
| EngineSession.SpeechService.constructor | app/src/main/java/io/legado/app/service/VoiceAssistantService.kt:58-65 | no engine, both flags false, no recorder and no recorder thread |
| EngineSession.SpeechService.Reply | app/src/main/java/io/legado/app/service/VoiceAssistantService.kt:193-194 | a directive sent through a missing engine has no reply; otherwise the engine's code |
| EngineSession.SpeechService.InitVoiceEngine | app/src/main/java/io/legado/app/service/VoiceAssistantService.kt:107-133 | an existing engine is kept unchanged; otherwise the engine is created and `isInitialized` is set exactly when the init code is ERR_NO_ERROR, with the matching notice |
| EngineSession.SpeechService.StartVoiceAssistant | app/src/main/java/io/legado/app/service/VoiceAssistantService.kt:185-224 | already started: returns true and sends nothing; no engine: false with a sync-stop error; otherwise true exactly when both directives return ERR_NO_ERROR; it never sets the started flag |
| EngineSession.SpeechService.StartNotices | app/src/main/java/io/legado/app/service/VoiceAssistantService.kt:191-218 | a sync-stop failure stops before the start directive; with two successes only the two directives are sent |
| EngineSession.SpeechService.StopRecording | app/src/main/java/io/legado/app/service/VoiceAssistantService.kt:334-353 | a thread that is not alive changes nothing; otherwise the run flag is cleared, the thread is gone, and the recorder stop and a "not recording" event are reported |
| EngineSession.SpeechService.StopVoiceAssistant | app/src/main/java/io/legado/app/service/VoiceAssistantService.kt:226-241 | when not started it changes nothing; otherwise it sends FINISH_TALKING and stops the recorder thread, which clears `isRecording` exactly when the thread was alive; the started flag stays |
| EngineSession.SpeechService.ToggleVoiceAssistant | app/src/main/java/io/legado/app/service/VoiceAssistantService.kt:243-256 | not initialised: false, with the error and a "not recording" event, `isRecording` unchanged; started: stops and returns false, `isRecording` cleared exactly when the recorder thread was alive; otherwise returns what starting returns, `isRecording` unchanged; neither engine flag changes |
| EngineSession.SpeechService.DestroyEngine | app/src/main/java/io/legado/app/service/VoiceAssistantService.kt:262-273 | afterwards there is no engine, both flags are false and no recorder thread is alive; `isRecording` is cleared exactly when a thread was alive |
| EngineSession.SpeechService.StartRecording | app/src/main/java/io/legado/app/service/VoiceAssistantService.kt:277-332 | a missing recorder without permission throws and a device that fails to initialise fails, both changing nothing; an alive thread is kept; otherwise a thread starts with a "recording" event |
| EngineSession.SpeechService.RecorderThreadExited | app/src/main/java/io/legado/app/service/VoiceAssistantService.kt:357-408 | the recorder thread ending on its own leaves the service consistent and the thread not alive |
| EngineSession.SpeechService.OnSpeechMessage | app/src/main/java/io/legado/app/service/VoiceAssistantService.kt:414-463 | only ENGINE_START sets and only ENGINE_STOP clears `isEngineStarted`; each message type yields its notices; on ENGINE_START the recorder exists and runs exactly when it existed or could be built, `isRecording` is set when a thread starts, and the whole notice log is stated: a recording event for a new thread, then "recording started" and the state, except that a start without a recorder and without permission throws before notifying; other messages leave the recorder, the thread and `isRecording` unchanged |
| EngineSession.SpeechService.RecognizedNotices | app/src/main/java/io/legado/app/service/VoiceAssistantService.kt:447-457 | a result message notifies the listener exactly when its payload passes the filter |
| FramePackaging.PackageSizeIsDuration | app/src/main/java/io/legado/app/service/VoiceAssistantService.kt:371-372 | the package budget is 16000·1·2·100/1000 = 3200 bytes, more than one 2560-byte buffer |
| FramePackaging.Gather | app/src/main/java/io/legado/app/service/VoiceAssistantService.kt:375-389 | the reference package boundary: from a read on, bytes are gathered until the budget is reached, a read error (consumed) or the end of the reads, and at least one read is consumed when any is left and the budget is not yet reached |
| FramePackaging.PackagesFromExtends | app/src/main/java/io/legado/app/service/VoiceAssistantService.kt:374-398 | the packages found so far are a prefix of the complete package list |
| FramePackaging.GatherCaptures | app/src/main/java/io/legado/app/service/VoiceAssistantService.kt:375-389 | the reads a package consumes contribute exactly its bytes |
| FramePackaging.GatherCuts | app/src/main/java/io/legado/app/service/VoiceAssistantService.kt:375-389 | a package's size bound, cut reason, all-bytes reads before its last, and budget before its last read |
| FramePackaging.ReadErrorCutsPackage | app/src/main/java/io/legado/app/service/VoiceAssistantService.kt:375-389 | a read error first: it is consumed by an empty package, which is not fed; the next two reads form one package closed when recording stops |
| FramePackaging.AcceptedStep | app/src/main/java/io/legado/app/service/VoiceAssistantService.kt:392-393 | one more accepted package keeps every package so far accepted |
| FramePackaging.ShapedStep | app/src/main/java/io/legado/app/service/VoiceAssistantService.kt:374-398 | appending a well-shaped package keeps the package list shaped |
| FramePackaging.FedStep | app/src/main/java/io/legado/app/service/VoiceAssistantService.kt:374-398 | one loop iteration keeps the fed packages a prefix of `Packages`, equal in bytes to what was read, and shaped |
| FramePackaging.FeedReply | app/src/main/java/io/legado/app/service/VoiceAssistantService.kt:392-393 | a package counts as accepted exactly when an engine exists and returns 0 |
| FramePackaging.GatherPackage | app/src/main/java/io/legado/app/service/VoiceAssistantService.kt:375-389 | the package, its cut and the reads consumed are exactly `Gather`'s: the concatenation of the bytes read in order, zero-byte reads adding nothing; every read but the last consumed returned bytes, and the package held under 3200 bytes before its last read; it closes on the budget exactly when it holds at least 3200 bytes (so under 3200+2560), right after a read error (which is consumed and ends it), or when recording stops |
| FramePackaging.RecordAndFeed | app/src/main/java/io/legado/app/service/VoiceAssistantService.kt:374-398 | the fed packages are a prefix of `Packages`, and all of it when reading stops; concatenated, they are exactly the bytes read so far; every package is non-empty and shaped by the budget; every package but the last was accepted; the loop ends when reading stops or at the first refused package |
| JvmInts.Wrap32 | app/src/main/java/io/legado/app/service/LLMAssistantService.kt:75 | a Kotlin `Int` result is the true value reduced into 32 bits |
| JvmInts.WrapSucc | app/src/main/java/io/legado/app/service/LLMAssistantService.kt:75 | incrementing a wrapped counter gives the wrap of the incremented count |
| JvmInts.WrapInjective | app/src/main/java/io/legado/app/service/LLMAssistantService.kt:91 | values less than 2^32 apart wrap to different `Int`s |
| AudioLevels.UnsignedSample | app/src/main/java/io/legado/app/help/assistant/AudioRecorder.kt:69-70 | the sample as written: low byte plus 256 times the high byte, both taken unsigned, in 0..65535 |
| AudioLevels.DecodedSamples | app/src/main/java/io/legado/app/help/assistant/AudioRecorder.kt:67-70 | the loop decodes one unsigned sample per even offset, `bytesRecord / 2` in all |
| AudioLevels.UnsignedSquare | app/src/main/java/io/legado/app/help/assistant/AudioRecorder.kt:72 | `sample * sample` as written is an `Int` product, which wraps |
| AudioLevels.SignedSample | app/src/main/java/io/legado/app/help/assistant/AudioRecorder.kt:69-70 | the corrected sample: 16-bit two's complement, in -32768..32767, congruent to the unsigned reading modulo 65536 |
| AudioLevels.DecodeEncode | app/src/main/java/io/legado/app/help/assistant/AudioRecorder.kt:69-70 | decoding the little-endian bytes of a sample gives the sample back |
| AudioLevels.EncodeDecode | app/src/main/java/io/legado/app/help/assistant/AudioRecorder.kt:69-70 | every byte pair is the encoding of the sample it decodes to |
| AudioLevels.SampleSquare | app/src/main/java/io/legado/app/help/assistant/AudioRecorder.kt:72 | the square of a corrected sample is at most 2^30 and never wraps |
| AudioLevels.UnsignedMisreadsNegative | app/src/main/java/io/legado/app/help/assistant/AudioRecorder.kt:69-70 | as written, every negative sample is read as itself plus 65536 |
| AudioLevels.MinusOneCounterexample | app/src/main/java/io/legado/app/help/assistant/AudioRecorder.kt:69-72 | the bytes FF FF are read as 65535 and their square wraps to -131071; the corrected square is 1 |
| AudioLevels.AllMaxSamplesSum | app/src/main/java/io/legado/app/help/assistant/AudioRecorder.kt:64-73 | as written, samples all read as 65535 sum, with the `Int` wrap, to -131071 per sample |
| AudioLevels.MinusOneChunkSumsNegative | app/src/main/java/io/legado/app/help/assistant/AudioRecorder.kt:64-73 | as written, a chunk of FF bytes sums to a negative value, -131071 times its sample count |
| AudioLevels.SquaresBounds | app/src/main/java/io/legado/app/help/assistant/AudioRecorder.kt:64-73 | the sum of squares of m samples is between 0 and m·2^30 |
| AudioLevels.SilentChunk | app/src/main/java/io/legado/app/help/assistant/AudioRecorder.kt:64-73 | an all-zero chunk sums to 0 |
| AudioLevels.SumOfSquares | app/src/main/java/io/legado/app/help/assistant/AudioRecorder.kt:64-73 | the loop's sum over `bytesRecord` bytes, with the corrected signed decoding, is the sum of the squares of its `bytesRecord / 2` samples, with its bounds |
| AudioLevels.Decibels | app/src/main/java/io/legado/app/help/assistant/AudioRecorder.kt:79-82 | a root mean square at or below 1e-10 gives -120 dB |
| AudioLevels.Level | app/src/main/java/io/legado/app/help/assistant/AudioRecorder.kt:85-92 | the volume level is always in 0..9 |
| AudioLevels.LevelThreshold | app/src/main/java/io/legado/app/help/assistant/AudioRecorder.kt:85-92 | level k (1..9) is reached exactly from -60 + 40k/9 dB on |
| AudioLevels.QuietIsLevelZero | app/src/main/java/io/legado/app/help/assistant/AudioRecorder.kt:85-92 | -60 dB and below gives level 0; level 0 holds exactly below -60 + 40/9 dB |
| AudioLevels.LoudIsLevelNine | app/src/main/java/io/legado/app/help/assistant/AudioRecorder.kt:85-92 | level 9 holds exactly from -20 dB on |
| AudioLevels.LevelMonotone | app/src/main/java/io/legado/app/help/assistant/AudioRecorder.kt:85-92 | a louder chunk never shows a lower level |
| AudioLevels.SilenceShowsNothing | app/src/main/java/io/legado/app/help/assistant/AudioRecorder.kt:79-92 | a silent chunk shows level 0, whatever the logarithm |
| MicRecorder.ChunkVolume | app/src/main/java/io/legado/app/help/assistant/AudioRecorder.kt:75-94 | the volume report carries the chunk's decibels, computed from its root mean square, and their level, in 0..9; a silent chunk reports -120 dB and level 0 |
| MicRecorder.ChunksRead | app/src/main/java/io/legado/app/help/assistant/AudioRecorder.kt:51-115 | every chunk the loop reads is a whole number of 16-bit samples |
| MicRecorder.DeliveriesPaired | app/src/main/java/io/legado/app/help/assistant/AudioRecorder.kt:94-98 | with a callback, each chunk read is delivered in order, right after its own volume report |
| MicRecorder.NoCallbackNoDeliveries | app/src/main/java/io/legado/app/help/assistant/AudioRecorder.kt:94-98 | without a callback nothing is delivered |
| MicRecorder.ReadLoop | app/src/main/java/io/legado/app/help/assistant/AudioRecorder.kt:51-115 | the loop delivers exactly `Deliveries`: a volume report and the chunk for each positive read, nothing for the two retry codes or an exception, and it ends at any other code |
| MicRecorder.AudioRecorder.constructor | app/src/main/java/io/legado/app/help/assistant/AudioRecorder.kt:26-29 | no recorder, run flag clear, no job, no callback |
| MicRecorder.AudioRecorder.RegisterCallback | app/src/main/java/io/legado/app/help/assistant/AudioRecorder.kt:31-33 | a callback is registered |
| MicRecorder.AudioRecorder.Teardown | app/src/main/java/io/legado/app/help/assistant/AudioRecorder.kt:121-130 | an existing recorder is stopped exactly when it is initialised and always released, the release last, with no other event; no recorder means nothing |
| MicRecorder.AudioRecorder.StartRecordInternal | app/src/main/java/io/legado/app/help/assistant/AudioRecorder.kt:149-174 | the previous job is cancelled; without a recorder and without permission nothing else happens; otherwise the recorder exists, the run flag is set and a job runs |
| MicRecorder.AudioRecorder.StopRecord | app/src/main/java/io/legado/app/help/assistant/AudioRecorder.kt:205-226 | run flag, job, recorder and callback are all cleared, and the old recorder is torn down |
| MicRecorder.AudioRecorder.RecordCoroutine | app/src/main/java/io/legado/app/help/assistant/AudioRecorder.kt:38-133 | no recorder: nothing; uninitialised: handed to `stopRecord`; initialised: started, read by the loop while the run flag is set, then stopped and released; the slot ends empty |
| ToolCalls.DecodeArguments | app/src/main/java/io/legado/app/model/ToolCall.kt:39-52 | only a JSON decoder is accepted; an object becomes the map of its members' primitive contents, failing on a non-primitive member; anything else becomes the empty map |
| ToolCalls.EncodeArguments | app/src/main/java/io/legado/app/model/ToolCall.kt:54-57 | the arguments become an object of JSON strings with the same keys |
| ToolCalls.ArgumentsRoundTrip | app/src/main/java/io/legado/app/model/ToolCall.kt:39-57 | decoding what was encoded gives back the arguments |
| ToolCalls.NullMemberIsText | app/src/main/java/io/legado/app/model/ToolCall.kt:44 | a JSON null member decodes to the text "null" |
| ToolCalls.DecodeToolItem | app/src/main/java/io/legado/app/model/ToolCall.kt:28-33 | a missing arguments member means the empty map; otherwise the decoded arguments or the decoder's error |
| ToolCalls.ToolItemRoundTrip | app/src/main/java/io/legado/app/model/ToolCall.kt:28-57 | a call whose arguments were encoded decodes back to the same name and arguments |
| ToolCalls.ExecuteToolCall | app/src/main/java/io/legado/app/model/ToolCall.kt:105-143 | a call performs an action only when it names that action's tool, and performs none when it names no tool |
| ToolCalls.ToolNamesDistinct | app/src/main/java/io/legado/app/model/ToolCall.kt:17-26 | the eight tool names are pairwise distinct |
| ToolCalls.DispatchSelectsNamedAction | app/src/main/java/io/legado/app/model/ToolCall.kt:105-143 | a call performs an action exactly when it names that action's tool |
| ToolCalls.DispatchIgnoresArguments | app/src/main/java/io/legado/app/model/ToolCall.kt:105-106 | the arguments never influence dispatch |
| ToolCalls.CatalogIndex | app/src/main/java/io/legado/app/model/ToolCall.kt:62-103 | every action has a place in the catalog |
| ToolCalls.CatalogNames | app/src/main/java/io/legado/app/model/ToolCall.kt:62-103 | the catalog lists the eight tools in order Start, Pause, Resume, Stop, PrevChapter, NextChapter, PrevParagraph, NextParagraph |
| ToolCalls.CatalogShape | app/src/main/java/io/legado/app/model/ToolCall.kt:61-103 | eight entries with pairwise distinct names, all with the empty-object parameter schema |
| ToolCalls.CatalogMatchesDispatch | app/src/main/java/io/legado/app/model/ToolCall.kt:62-143 | every action is offered in the catalog, and every catalog entry dispatches to its own action |
| ToolCalls.UnknownToolDoesNothing | app/src/main/java/io/legado/app/model/ToolCall.kt:140-142 | a name outside the catalog performs no action |
| Contexts.Registration.constructor | app/src/main/java/io/legado/app/model/VoiceAssistant.kt:24-30 | no activity and no service are registered |
| Contexts.Registration.Current | app/src/main/java/io/legado/app/model/LLMAssistant.kt:19 | the effective context is the activity, else the service, else the application |
| Contexts.Registration.CallbackTarget | app/src/main/java/io/legado/app/model/VoiceAssistant.kt:77-78 | results reach the registered activity exactly when it implements the callback interface |
| Contexts.Registration.Register | app/src/main/java/io/legado/app/model/ASRAssistant.kt:32-34 | the new activity replaces any earlier one |
| Contexts.Registration.Unregister | app/src/main/java/io/legado/app/model/LLMAssistant.kt:27-32 | the activity is cleared only when it is the identical object |
| Contexts.Registration.RegisterService | app/src/main/java/io/legado/app/model/LLMAssistant.kt:34-36 | the service context is the given one |
| Contexts.Registration.UnregisterService | app/src/main/java/io/legado/app/model/ASRAssistant.kt:47-49 | the service context is cleared whatever the argument |
| RecordingAssistants.ActionsDistinct | app/src/main/java/io/legado/app/model/ASRAssistant.kt:51-66 | each assistant has its own start and stop actions and callback interface, and no start action is a stop action |
| RecordingAssistants.ToggleEffects | app/src/main/java/io/legado/app/model/VoiceAssistant.kt:53-70 | from recording, exactly two effects: the stop action is sent, then the new state is posted; otherwise exactly three: the start action is sent, the assistant screen opened, and the new state posted last |
| RecordingAssistants.ToggleTwiceStartsAndStops | app/src/main/java/io/legado/app/model/VoiceAssistant.kt:53-70 | two toggles start the service once and stop it once, and post the original state last |
| RecordingAssistants.RecordingAssistant.constructor | app/src/main/java/io/legado/app/model/ASRAssistant.kt:22-30 | nothing registered and not recording |
| RecordingAssistants.RecordingAssistant.Toggle | app/src/main/java/io/legado/app/model/ASRAssistant.kt:51-68 | `recording` is negated, and the effects are those of `ToggleEffects`, through the context passed in |
| RecordingAssistants.RecordingAssistant.IsRecording | app/src/main/java/io/legado/app/model/VoiceAssistant.kt:72-74 | returns `recording` |
| RecordingAssistants.RecordingAssistant.OnResult | app/src/main/java/io/legado/app/model/ASRAssistant.kt:74-80 | the result and status are forwarded unchanged, and only to a registered activity that implements the callback |
| LLMAssistants.Accumulate | app/src/main/java/io/legado/app/model/LLMAssistant.kt:50-53 | status 0 makes the chunk the whole answer; any other status appends it to the old answer, keeping that answer as a prefix |
| LLMAssistants.LastReset | app/src/main/java/io/legado/app/model/LLMAssistant.kt:51 | finds the last chunk that resets the answer, or shows that none does |
| LLMAssistants.AnswerSinceLastReset | app/src/main/java/io/legado/app/model/LLMAssistant.kt:49-53 | after a stream of chunks the answer is the contents from the last status-0 chunk on, or, with none, the earlier answer followed by all contents |
| LLMAssistants.HiThere | app/src/main/java/io/legado/app/model/LLMAssistant.kt:50-53 | ("Hi", 0) then (" there", 1) leaves "Hi there" |
| LLMAssistants.LLMAssistant.constructor | app/src/main/java/io/legado/app/model/LLMAssistant.kt:13-21 | nothing registered and an empty answer |
| LLMAssistants.LLMAssistant.StartChat | app/src/main/java/io/legado/app/model/LLMAssistant.kt:42-47 | the chat-model service is asked, through the effective context, to answer the message |
| LLMAssistants.LLMAssistant.OnLLMResult | app/src/main/java/io/legado/app/model/LLMAssistant.kt:49-59 | the answer is accumulated, and the whole answer, not the chunk, goes with the chunk's status to a registered activity that implements the callback |
| LLMSessions.TagOf | app/src/main/java/io/legado/app/service/LLMAssistantService.kt:20 | the tag of the n-th request is n reduced into an `Int` |
| LLMSessions.TagsDistinct | app/src/main/java/io/legado/app/service/LLMAssistantService.kt:75-76 | no two of any 2^32 consecutive requests share a tag |
| LLMSessions.StaleChunkDropped | app/src/main/java/io/legado/app/service/LLMAssistantService.kt:91 | a chunk carrying an earlier request's tag never matches the current tag |
| LLMSessions.LLMSession.constructor | app/src/main/java/io/legado/app/service/LLMAssistantService.kt:20-22 | tag 0, session finished, nothing sent |
| LLMSessions.LLMSession.RunLLM | app/src/main/java/io/legado/app/service/LLMAssistantService.kt:63-84 | an empty message, or one arriving while a session is open, changes nothing; otherwise the tag is incremented before the message is sent under it, and the session opens exactly when `arun` returns 0 |
| LLMSessions.LLMSession.OnLLMResult | app/src/main/java/io/legado/app/service/LLMAssistantService.kt:90-118 | a chunk with another tag has no effect; a matching chunk is forwarded with its content and status, and status 2 closes the session |
| LLMSessions.LLMSession.OnLLMError | app/src/main/java/io/legado/app/service/LLMAssistantService.kt:128-137 | any error closes the session |
| ChatMessages.Appended | app/src/main/java/io/legado/app/ui/assistant/VoiceAssistantViewModel.kt:19 | one longer, the old messages as prefix, the new one last; an unset list counts as empty |
| ChatMessages.WithLastReplaced | app/src/main/java/io/legado/app/ui/assistant/VoiceAssistantViewModel.kt:22-29 | on a non-empty list the length and prefix stay and only the last message is replaced; an unset or empty list is left as it is |
| ChatMessages.Last | app/src/main/java/io/legado/app/ui/assistant/VoiceAssistantViewModel.kt:32 | the last message, or none exactly when the list is unset or empty |
| ChatMessages.LastOfAppended | app/src/main/java/io/legado/app/ui/assistant/VoiceAssistantViewModel.kt:18-33 | after appending a message, the last message is that message |
| ChatMessages.ReplaceTwice | app/src/main/java/io/legado/app/ui/assistant/VoiceAssistantViewModel.kt:22-29 | replacing the last message twice equals replacing it once with the second message |
| ChatMessages.RevisionsKeepOneMessage | app/src/main/java/io/legado/app/ui/assistant/VoiceAssistantActivity.kt:66-75 | a status-0 result followed by revisions leaves one message after the earlier ones, holding the last revision |
| ChatMessages.ChatViewModel.constructor | app/src/main/java/io/legado/app/ui/assistant/VoiceAssistantViewModel.kt:10 | the list starts unset |
| ChatMessages.ChatViewModel.AddNewMessage | app/src/main/java/io/legado/app/ui/assistant/VoiceAssistantViewModel.kt:18-20 | the list becomes `Appended` of the old list |
| ChatMessages.ChatViewModel.EditLastMessage | app/src/main/java/io/legado/app/ui/assistant/VoiceAssistantViewModel.kt:22-29 | the list becomes `WithLastReplaced` of the old list |
| ChatMessages.ChatViewModel.LastMessage | app/src/main/java/io/legado/app/ui/assistant/VoiceAssistantViewModel.kt:31-33 | returns `Last` of the list |
| ChatMessages.ChatScreen.constructor | app/src/main/java/io/legado/app/ui/assistant/VoiceAssistantActivity.kt:19-20 | an empty input field over a fresh view model with an unset list |
| ChatMessages.ChatScreen.OnResult | app/src/main/java/io/legado/app/ui/assistant/VoiceAssistantActivity.kt:66-75 | status 0 appends a user message holding the result; any other status replaces the last message, and does nothing when there is none |
| ChatMessages.ChatScreen.Send | app/src/main/java/io/legado/app/ui/assistant/VoiceAssistantActivity.kt:45-52 | blank input changes nothing; other input appends exactly one user message holding it and clears the field |

## Left out

- **Concurrency.** The recorder thread's interrupt and join, coroutine launch, cancellation and `yield` are not modelled. This includes `cancelChildren` in `unregister` and the race in which a cancelled earlier recording coroutine releases a recorder that a later start still uses. The loops are modelled sequentially, over the sequence of read results supplied; the run flag is taken to stay set until those reads are used up.
- **Floating point.** Square root, `log10` and the `Double` sum are parameters (`rmsOf`, `log10`). Reals stand for doubles, so rounding is not modelled.
- **SDK and platform calls.** Engine creation and configuration, library loading, `AudioRecord` construction, the service lifecycle and logging are not modelled. Their return codes are parameters; their observable effects are log entries.
- **Exceptions from the SDK.** The catch-all `catch (e: Exception)` branches around engine calls are not modelled; the model assumes the SDK does not throw there.
- **`ERR_REC_CHECK_ENVIRONMENT_FAILED`.** Its numeric value belongs to the speech SDK and is not in the repository. The model uses a placeholder distinct from `ERR_NO_ERROR`; only that distinctness matters.
- **`RecorderThread` permission re-check.** The thread's own permission re-check at its start and its final `audioRecord.stop()` are not part of `FramePackaging.RecordAndFeed`, which models the thread from its first read.
- **The recorder thread's own stop.** The `audioRecord.stop()` in the recorder thread's `finally` block is not logged; `EngineSession.SpeechService.StopRecording` logs only its own stop of the recorder.
- **Listener null-ness.** Listener callbacks are recorded whether or not a listener is set.
- **Permission prompt.** `AudioRecorder.startRecord`'s permission-prompt wrapper is not modelled. `startRecordInternal` catches the `SecurityException` itself, so the wrapper never sees it; permission is a boolean parameter.
- **Odd byte counts.** A 16-bit PCM read is assumed to return whole samples, so odd byte counts from the microphone are excluded.
- **JSON parsing.** Concrete parsing by org.json and kotlinx.serialization is not modelled; JSON is an abstract datatype. `DecodeToolItem` covers only the two members of a `ToolItem`.
- **Read-aloud effects.** The effects of a tool call on the reader (`ReadAloud`, `ReadBook`) are the `Action` enum.
- **Chat-model SDK.** The chat-model SDK itself (`LLMFactory`, `stop`, token accounting) is not modelled. A result's tag is taken to be an `Int`; a null tag, which makes `o as Int` throw, is not modelled.
- **Message timestamps.** `ChatMessage.timestamp` defaults to the system clock and is left out.
- **Pure UI.** The `RecyclerView` and adapter updates are not modelled, and neither are `VoiceAssistantView` and `ChatAdapter`.
- **`handleVoiceCommand`.** It only logs, so it is not modelled.
- Text.Lowercase: lowers only the ASCII capitals A-Z, whereas Kotlin's `lowercase()` follows the full Unicode case mapping. The command keywords are Chinese, so no keyword match depends on the difference.

## Findings

| source | as written | input that shows it | evidently intended | confidence | as-written member | corrected member |
|---|---|---|---|---|---|---|
| app/src/main/java/io/legado/app/help/assistant/AudioRecorder.kt:69-72 | both bytes of a 16-bit PCM sample are masked with `and 0xFF` before joining, so the sample is read unsigned (0..65535), and its `Int` square wraps above 46340 | bytes FF FF (sample -1, near silence): read as 65535, squared to -131071 | little-endian signed decoding: sample -1, square 1, and no square above 2^30 | not executed | AudioLevels.MinusOneCounterexample | AudioLevels.SumOfSquares |

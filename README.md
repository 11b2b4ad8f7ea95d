# VoiceChat session model

A Dafny model of the session logic of the `VoiceChat` React component
(`src/components/VoiceChat.js`) of a voice chat with a pet persona. The user
talks or types. The browser's speech recognizer supplies interim and final
transcripts. A chat service (`deepseekService.chatWithPet`) answers, and a TTS
service (`ttsService`) speaks the answer. Meanwhile the component keeps a transcript
(`messages`), the interim text (`currentText`) and three flags
(`isListening`, `isProcessing`, `isSpeaking`).

Modules, leaf first:

- `Wrappers`: `Option`.
- `Text`: JavaScript's `String.prototype.trim` with the ECMAScript whitespace set, and `IsBlank`, the test `!text.trim()`.
- `Transcript`: the `Message` record (`text`, `sender` ∈ {`User`, `Pet`}).
- `Persona`: the `petConfig` table and the `petConfig[selectedPet] || petConfig.fox` lookup.
- `History`: the mapping from the `conversationHistory` prop to messages.
- `Recognition`: the `onresult` loop that splits result segments into a final and an interim transcript.
- `Session`: class `VoiceChat`, with the state as fields and each handler as a method.
- `Scenarios`: client methods that drive a `VoiceChat` and check the outcome.

The model treats every handler as atomic. Anything a handler learns from
outside is a parameter: the chat reply is an `Option<string>` (`None` means
`chatWithPet` threw), and the TTS callbacks arrive through `OnPlayback`. Calls
into outside code are appended to an `effects` log. These are recognizer
start/stop, TTS play/stop, the chat request, the parent notification and
`setTimeout`. The log lets ordering
properties be stated. Timers that have been set but not yet fired sit in
`pending`, and `Fire(k, reply)` fires any one of them, since real timing is
not modelled.

Behaviour of the code that the model keeps as it is:

- Each final recognition result sets its own 1000 ms timer for `handleVoiceMessage`. No timer is ever cancelled, so a repeated final result is answered once per timer (`Scenarios.DoubleFinalSchedulesTwoTurns`).
- `handleSendMessage` shows its apology but does not speak it. `handleVoiceMessage` speaks its apology, and a different one.
- A second chat request can start while an earlier one is still awaiting its reply: nothing checks `isProcessing`.
- `onerror` and `onend` only clear `isListening`.
- The unmount cleanup stops the recognizer and the TTS. It does not cancel pending timers.
- `speakText` passes the raw `selectedPet` prop to the TTS service, not the looked-up persona id. `chatWithPet` gets the raw prop too.
- `handleSendMessage` is not wired to any control in the rendered output. It is modelled as the entry point for typed text.

## Model

| member | source | states |
|---|---|---|
| `Text.TrimStart` | src/components/VoiceChat.js:154 | the result is the suffix of the input after its leading whitespace; everything dropped is whitespace and the result starts with a non-space or is empty |
| `Text.TrimEnd` | src/components/VoiceChat.js:154 | the result is the prefix of the input before its trailing whitespace; everything dropped is whitespace and the result ends with a non-space or is empty |
| `Text.Trim` | src/components/VoiceChat.js:154 | `text.trim()` is a slice of the input with only whitespace before and after it; when non-empty it starts and ends with a non-space, which fixes the slice |
| `Text.TrimEmptyIffBlank` | src/components/VoiceChat.js:154 | `text.trim()` is the empty string exactly when every character of `text` is whitespace |
| `Text.TrimmedIsEmpty` | src/components/VoiceChat.js:214 | evaluating `!text.trim()` yields true exactly for blank text |
| `Persona.Lookup` | src/components/VoiceChat.js:40-64 | ids `fox`, `dolphin` and `owl` get the profile with their own id; every other id gets the fox profile; the result is always an entry of the table |
| `Persona.ConfigKeyedById` | src/components/VoiceChat.js:40-62 | each table entry is filed under its own `id` |
| `Persona.LookupCanonical` | src/components/VoiceChat.js:64 | looking up the id of the resolved persona resolves to the same persona |
| `History.MapHistory` | src/components/VoiceChat.js:29-34 | the mapped history has one message per entry, in order; message i has entry i's content as text and is from the user exactly when the role is "user", from the pet otherwise |
| `History.MapHistoryInvertsToHistory` | src/components/VoiceChat.js:29-34 | a transcript written out with roles "user"/"assistant" maps back to itself |
| `History.ToHistoryInvertsMapHistory` | src/components/VoiceChat.js:32 | host history survives the mapping and back exactly when every role is "user" or "assistant"; any other role is read as the pet's |
| `History.MapHistoryAppend` | src/components/VoiceChat.js:29-34 | the mapping distributes over concatenation of histories |
| `Recognition.Select` | src/components/VoiceChat.js:88-92 | the selected segments all carry the requested `isFinal` flag and are no more than the input |
| `Recognition.SplitSegments` | src/components/VoiceChat.js:83-93 | the loop's two accumulators end as the in-order concatenation of the final, resp. non-final, transcripts of the segments from `resultIndex` on; both are empty when `resultIndex` is at or past the end |
| `Recognition.SelectPartitions` | src/components/VoiceChat.js:86-93 | every segment in range lands on exactly one side: the final and non-final segments together are the segments in range, as a multiset and by count |
| `Recognition.JoinedIsSelectedText` | src/components/VoiceChat.js:88-92 | the final (interim) transcript is the concatenated text of exactly the final (non-final) segments, in order |
| `Recognition.SplitPreservesText` | src/components/VoiceChat.js:86-93 | the final and interim transcripts together hold exactly the characters of all segments in range, none lost or duplicated |
| `Recognition.UniformSegments` | src/components/VoiceChat.js:86-93 | when every segment in range has the same flag, that side's transcript is all the text and the other side is empty |
| `Session.VoiceReplyText` | src/components/VoiceChat.js:233-255 | the voice reply is the service's reply when non-empty, the "interesting question" fallback when empty, the "a bit tired" apology when the call failed; it is never empty |
| `Session.VoiceChat.constructor` | src/components/VoiceChat.js:16-37 | a new component starts with all flags false, no interim text, no timers, no effects, and the transcript mapped from a non-empty initial history (empty otherwise) |
| `Session.VoiceChat.SyncHistory` | src/components/VoiceChat.js:27-37 | a non-empty history replaces the transcript by its mapping, whatever was there; an empty one leaves it unchanged; nothing else changes |
| `Session.VoiceChat.SpeakText` | src/components/VoiceChat.js:125-150 | the text goes to the TTS service with the selected pet unless the component already believes it is speaking; then nothing happens; the flag itself is not touched |
| `Session.VoiceChat.OnPlayback` | src/components/VoiceChat.js:132-147 | after the TTS onStart callback the component is speaking; after onEnd, onError or a rejected play it is not |
| `Session.VoiceChat.OnRecognitionStop` | src/components/VoiceChat.js:106-112 | recognizer onerror and onend clear `isListening` and change nothing else |
| `Session.VoiceChat.OnResult` | src/components/VoiceChat.js:82-104 | `currentText` becomes the final transcript if non-empty, else the interim one; exactly one 1000 ms voice turn with the final transcript is scheduled iff it is non-empty, added to the earlier ones; messages and flags are untouched |
| `Session.VoiceChat.HandleVoiceMessage` | src/components/VoiceChat.js:213-259 | blank text changes nothing; otherwise exactly user(text) then pet(p) are appended with p per `VoiceReplyText`, a 500 ms clear is scheduled, one chat request is made, p is played once unless already speaking, and `isProcessing` ends false |
| `Session.VoiceChat.HandleSendMessage` | src/components/VoiceChat.js:153-205 | blank text changes nothing; otherwise user(text) is appended, the parent (if any) is notified once, one chat request is made, then pet(reply) is appended and played (unless already speaking) or, on failure, the fixed apology is appended and not played; `isProcessing` ends false |
| `Session.VoiceChat.ToggleListening` | src/components/VoiceChat.js:262-283 | without a recognizer nothing changes; while listening, recognition is stopped and `isListening` cleared; otherwise playback stop (only if speaking) precedes recognition start, and afterwards the component listens, is not speaking and shows no interim text |
| `Session.VoiceChat.Fire` | src/components/VoiceChat.js:100-102 | firing a pending timer removes it; a clear empties `currentText`; a voice turn always carries a non-empty transcript and does exactly what `HandleVoiceMessage` does with the remaining timers |
| `Session.VoiceChat.Teardown` | src/components/VoiceChat.js:115-121 | unmounting stops the recognizer (if there is one) and then playback, and leaves the pending timers in place |

## Left out

- Rendering, animation and scrolling to the bottom (`src/components/VoiceChat.js:66-71`, `:207-210`, `:288-397`) are presentation and DOM I/O. `FloatingRobot.js` and `SpeechBubble.js` hold no session logic.
- Creating and configuring the browser recognizer (`:75-80`) is a host API. Its presence is the constructor flag `hasRecognizer`. The `alert` shown when it is missing (`:264`) is not modelled.
- `chatWithPet` and `ttsService` are services outside this model. Their outcomes are parameters and their calls are effect-log entries.
- Message ids and timestamps come from `Date.now()`/`new Date()`, which are wall-clock values. A history entry's `timestamp` only feeds them, so it is dropped.
- Timer delays are recorded as numbers, but their timing is not modelled. Any pending timer may be fired next.
- Interleaving between `await` points is not modelled. Each handler runs to completion with its reply outcome given up front. So `isProcessing` is observed as false between handlers, and the in-flight `true` is never seen.
- React stale closures are not modelled. The recognizer handlers are installed once at mount. They therefore call the first render's `handleVoiceMessage`, whose `speakText` saw `isSpeaking` as false. The model instead reads the current flag.
- `selectedPet` is fixed when a `VoiceChat` is built, so a change of that prop while the component is mounted is not modelled. In the source, `handleSendMessage` and `speakText` read the current prop, while the voice path reads the value from mount time.
- `Persona.Lookup`: JavaScript property lookup also finds inherited object properties (such as `constructor`). Such an id would not fall back to the fox; the model treats every id other than the three keys as unknown.
- `SyncHistory`: a `null` history takes the no-change path in the source. The model has no null; the empty sequence takes that path.
- Recognizer `start()` throwing when already started is not modelled, and neither is `console.log` output.

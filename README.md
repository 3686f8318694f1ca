# Voice turn-taking of the live chat demo, in Dafny

This project models the turn-taking core of a voice chat demo. The demo has two halves.

**Browser half.** Written in React. Each of its components:
- listens to the microphone;
- decides from the analyser volume that the speaker has stopped;
- seals the recorded chunks into one utterance and sends it for transcription;
- asks a chat service for a reply;
- hands the reply on to speech synthesis or playback;
- then, in most variants, goes back to listening.

**Native half.** Written in C++:
- a small OpenAI HTTP client, made of its environment helpers, its curl callbacks and the status gate of its requests;
- the start-up checks of the speech server.

Modules:

- `Common`: shared pieces.
  - Recorded chunks and the blob they are sealed into.
  - The volume of an analyser frame.
  - The outcomes of remote requests, and the `Action` log in which every component records what it did to the outside world.
- `SilenceDetector`: the silence rule that every variant shares.
  - A sample below the threshold starts or keeps a silence timestamp.
  - A louder sample clears it.
  - Silence is detected once a quiet sample comes strictly more than the timeout after the timestamp.
  - The module has the latched form used by the `useAudioRecorder` hook and the effect form used by the components.
- `AudioRecorderHook`: the `useAudioRecorder` hook (`hooks/use-audio-recorder.ts`), as a class whose fields are its refs and state.
- `BaseChatbot`: `components/voice-chatbot.tsx`.
- `RealisticChatbot`: `components/voice-chatbot-realistic.tsx`.
  - A 200 ms settle timer follows detected silence.
  - The reply is streamed.
  - Recording resumes after every turn.
- `ServerSentEvents`: the reader of the realistic component's streamed reply.
  - Lines split on `\n`.
  - `data: ` frames, the `[DONE]` sentinel and `choices[0].delta.content`.
- `WebSpeechChatbot`: `components/voice-chatbot-web-speech.tsx`.
  - The conversation history.
  - The byte/character loops around `btoa` and `atob`.
  - Playback, and the restart when playback ends.
- `OpenAiChatbot`: `components/voice-chatbot-openai.tsx`, which transcribes the growing buffer chunk by chunk.
- `EnhancedChatbot`: `components/voice-chatbot-enhanced.tsx`, built on the hook.
- `OpenAiClient`: `tts/src/openai.hpp`.
  - `get_env_else` and `is_env_defined`.
  - The case-insensitive order.
  - The write and header callbacks.
  - `make_request`, and the status gate of `post`, `get` and `delete_req`.
- `TtsServer`: the option checks of `tts/src/MyServer.cpp`.

How the outside world is modelled:

- **React state and refs** are class fields. Every event handler, effect run and timer callback is a method with a `modifies this` clause.
- **Time and devices.**
  - `Date.now()` is a parameter `now`.
  - The microphone, audio graph and `MediaRecorder` are reduced to whether capture is active.
  - `getUserMedia` succeeding is a parameter.
- **Remote requests** are appended to an `actions` log, together with the audio or text they carry. Their outcomes are datatype parameters.
- **Async handlers** are split at their first `await` when something can happen in between. Examples are `BeginTurn` and `HandleTranscript`, and `ProcessAudioChunk` and `OnTranscription`.
- **Timers** are handles.
  - `setTimeout` adds one to `liveTimers`, and `clearTimeout` removes it.
  - Firing is a method.
  - The class invariant says that no live timer is orphaned.
- **Foreign parsers.** `JSON.parse` of a stream frame and `atob` are function parameters.

Where the components' own descriptions and the code disagree, the model follows the code.

- **Where a silent stretch is timed from.** The detector times a silent stretch from its first quiet sample, and the comparison with the timeout is strict. Take samples 600 ms apart with volumes 0.2, 0.01, 0.01, 0.01:
  - timing from the last loud sample, silence would be detected at 1800 ms;
  - the code detects nothing until a fifth sample (`SilenceDetector.QuietTraceFiresOnlyOnFifthSample`).
- **The case-insensitive comparator.** The `CaseInsensitiveCompare` order in `openai.hpp` is declared but never used: the header map is an `unordered_map`. The order is modelled and its laws are proved on their own.
- **A failed transfer with a 2xx status.** In `openai.hpp`, suppose a transfer fails after a 2xx status and exceptions are off. Then `post`, `get` and `delete_req` hand the curl error text to `json_parse`, which throws a `parse_error` on it because it is not JSON. The contracts of `OpenAiClient.OpenAI.Post`, `Get` and `DeleteReq` state the hand-over as it is; the parse is not modelled.

## Model

| member | source | states |
|---|---|---|
| Common.FlattenConcat | voice-chatbot/hooks/use-audio-recorder.ts:129 | sealing two runs of chunks gives the blob of the first run followed by the blob of the second: the blob keeps push order |
| Common.FlattenSize | voice-chatbot/hooks/use-audio-recorder.ts:124-130 | the sealed blob holds exactly as many bytes as all buffered chunks together |
| Common.FlattenEmpty | voice-chatbot/hooks/use-audio-recorder.ts:124-130 | the sealed blob is empty exactly when every buffered chunk is empty |
| Common.PushNonEmpty | voice-chatbot/hooks/use-audio-recorder.ts:99-103 | a chunk holding bytes is appended at the end and the blob grows by exactly its bytes; an empty chunk leaves the buffer as it was |
| Common.PushKeepsNonEmpty | voice-chatbot/hooks/use-audio-recorder.ts:99-103 | a buffer built only by `ondataavailable` pushes never holds an empty chunk |
| Common.SumBound | voice-chatbot/hooks/use-audio-recorder.ts:138-145 | the sum of a frame of bytes is between 0 and 255 times its length |
| Common.CalculateVolume | voice-chatbot/hooks/use-audio-recorder.ts:138-145 | the loop's volume is the frame's mean byte divided by 255, and lies in [0, 1] |
| Common.VolumeBounds | voice-chatbot/hooks/use-audio-recorder.ts:143-144 | dividing the mean by 255, as the source does, equals dividing the sum by 255 times the length, and the volume lies in [0, 1] |
| SilenceDetector.QuietRunStart | voice-chatbot/hooks/use-audio-recorder.ts:81-90 | locates the trailing run of quiet samples: everything from it on is quiet and the sample before it is loud |
| SilenceDetector.StartIsFirstQuietSample | voice-chatbot/hooks/use-audio-recorder.ts:81-89 | after any run of samples the silence timestamp is the time of the first sample of the trailing quiet run, and none after a loud last sample |
| SilenceDetector.LatchStep | voice-chatbot/hooks/use-audio-recorder.ts:81-90 | one `onaudioprocess` step moves the timestamp by the shared rule: a quiet sample records `now` when none is recorded, a loud one clears it |
| SilenceDetector.LatchStepCases | voice-chatbot/hooks/use-audio-recorder.ts:81-89 | a first quiet sample only records its time; a latched detector is kept by quiet samples, so it fires once; a loud sample clears both fields; the flag is raised only by a quiet sample strictly past the timeout |
| SilenceDetector.LatchDetectsSustainedSilence | voice-chatbot/hooks/use-audio-recorder.ts:81-90 | from a cleared state the flag is set after a run exactly when the run ends in quiet samples and one of them came strictly more than the timeout after the first |
| SilenceDetector.LoudNeverFires | voice-chatbot/hooks/use-audio-recorder.ts:87-89 | a run of loud samples leaves neither timestamp nor flag, whatever the detector held before |
| SilenceDetector.QuietTraceFiresOnlyOnFifthSample | voice-chatbot/hooks/use-audio-recorder.ts:84 | with samples 600 ms apart after a loud one, silence is detected on the fifth sample and not before |
| SilenceDetector.SilenceEffect | voice-chatbot/components/voice-chatbot.tsx:63-78 | the effect triggers processing only while recording and not processing, and a trigger leaves the timestamp as it was |
| SilenceDetector.EffectTracksStart | voice-chatbot/components/voice-chatbot.tsx:64-77 | while recording and idle the effect's timestamp moves by the same rule as the hook's; otherwise the effect does nothing |
| SilenceDetector.EffectFiresAfterSustain | voice-chatbot/components/voice-chatbot.tsx:66-73 | from a fresh timestamp, the last sample of a run triggers exactly when it comes strictly more than 1500 ms after the first sample of the trailing quiet run |
| AudioRecorderHook.AudioRecorder.constructor | voice-chatbot/hooks/use-audio-recorder.ts:11-27 | the hook starts not recording, with volume 0, no error, no chunk and a cleared detector, keeping the given threshold and timeout |
| AudioRecorderHook.AudioRecorder.StartRecording | voice-chatbot/hooks/use-audio-recorder.ts:30-112 | the buffer and the error are reset; a refusal shows "Could not start recording: " and its reason; the detector is not reset |
| AudioRecorderHook.AudioRecorder.OnAudioProcess | voice-chatbot/hooks/use-audio-recorder.ts:71-91 | the volume is the frame's, and the detector takes exactly one step with it at `now` |
| AudioRecorderHook.AudioRecorder.OnDataAvailable | voice-chatbot/hooks/use-audio-recorder.ts:99-103 | only a chunk holding bytes is buffered, nothing else changes |
| AudioRecorderHook.AudioRecorder.StopRecording | voice-chatbot/hooks/use-audio-recorder.ts:115-121 | the recorder is stopped and recording is over; buffer and detector are kept |
| AudioRecorderHook.AudioRecorder.GetAudioBlob | voice-chatbot/hooks/use-audio-recorder.ts:124-130 | no blob exactly when nothing is buffered, otherwise one non-empty blob of every chunk in push order |
| AudioRecorderHook.AudioRecorder.ClearAudioChunks | voice-chatbot/hooks/use-audio-recorder.ts:133-135 | the buffer is emptied and nothing else changes |
| AudioRecorderHook.AudioRecorder.IsSilenceDetected | voice-chatbot/hooks/use-audio-recorder.ts:148-150 | returns the latched flag, which is never set without a silence start |
| AudioRecorderHook.AudioRecorder.ResetSilenceDetection | voice-chatbot/hooks/use-audio-recorder.ts:153-156 | the detector is cleared and nothing else changes |
| AudioRecorderHook.AudioRecorder.Cleanup | voice-chatbot/hooks/use-audio-recorder.ts:159-181 | the recorder is stopped and recording is over |
| BaseChatbot.ChatRequests | voice-chatbot/components/voice-chatbot.tsx:229-268 | no request without a non-empty transcript; otherwise the chat request carrying it, then a speech request for the answer exactly when it is non-empty and the socket is open |
| BaseChatbot.TurnRequests | voice-chatbot/components/voice-chatbot.tsx:209-273 | a turn always asks for a transcription of its audio first; a chat request is made exactly for a non-empty transcript and carries it; the speech socket gets exactly a non-empty reply while open |
| BaseChatbot.VoiceChatbot.constructor | voice-chatbot/components/voice-chatbot.tsx:6-19 | the component starts idle, capture off, nothing buffered and nothing done |
| BaseChatbot.VoiceChatbot.OnAudioProcess | voice-chatbot/components/voice-chatbot.tsx:171-175 | the volume is the frame's, nothing else changes |
| BaseChatbot.VoiceChatbot.DetectSilence | voice-chatbot/components/voice-chatbot.tsx:63-78 | the effect's step is the shared `SilenceEffect` on the current volume, recording and processing flags |
| BaseChatbot.VoiceChatbot.OnDataAvailable | voice-chatbot/components/voice-chatbot.tsx:184-188 | only a chunk holding bytes is buffered |
| BaseChatbot.VoiceChatbot.StartRecording | voice-chatbot/components/voice-chatbot.tsx:129-197 | buffer and timestamp are reset; capture starts exactly when the microphone is granted |
| BaseChatbot.VoiceChatbot.StopRecording | voice-chatbot/components/voice-chatbot.tsx:282-289 | capture is released once and recording is over; the buffer is kept |
| BaseChatbot.VoiceChatbot.ToggleRecording | voice-chatbot/components/voice-chatbot.tsx:120-126 | stops when recording or processing, releasing capture once and keeping the buffer; otherwise resets buffer and timestamp and starts capture exactly when granted; logs exactly the capture action taken; the volume and the busy flag are kept |
| BaseChatbot.VoiceChatbot.ProcessAudio | voice-chatbot/components/voice-chatbot.tsx:200-279 | nothing happens with no buffered chunk; otherwise capture is released before the requests of `TurnRequests` on the sealed blob, and the turn always ends not busy and not capturing |
| BaseChatbot.VoiceChatbot.HandleTranscript | voice-chatbot/components/voice-chatbot.tsx:229-268 | after the transcription the requests made are exactly `ChatRequests`: a chat request only with a non-empty transcript, speech only for a non-empty answer on an open socket; no flag or buffer changes |
| RealisticChatbot.SettleStep | voice-chatbot/components/voice-chatbot-realistic.tsx:64-85 | while listening and idle the effect is the hook's latched detector with 0.05 and 1500 ms, the timer playing the flag; otherwise, or on a loud sample, the timestamp is dropped and the timer cancelled |
| RealisticChatbot.SettleArmsAfterSustain | voice-chatbot/components/voice-chatbot-realistic.tsx:65-76 | from a fresh state a settle timer is pending exactly when the trailing quiet run lasted strictly more than 1500 ms |
| RealisticChatbot.SettleIsLatch | voice-chatbot/components/voice-chatbot-realistic.tsx:65-84 | over any run the realistic effect agrees with the hook's detector |
| RealisticChatbot.TurnRequests | voice-chatbot/components/voice-chatbot-realistic.tsx:182-228 | a turn asks for a transcription of its audio, then for a reply exactly when the transcript holds non-blank speech, carrying it |
| RealisticChatbot.ReplyDisplay | voice-chatbot/components/voice-chatbot-realistic.tsx:230-267 | a failed chat shows its error; a readable body shows the deltas of every frame in arrival order, and a failed read its error after them |
| RealisticChatbot.TurnDisplay | voice-chatbot/components/voice-chatbot-realistic.tsx:190-205 | a failed transcription shows its error; a blank one "(No speech detected)"; speech is shown and followed by the reply's display |
| RealisticChatbot.RealisticChatbot.AtMostOneLiveTimer | voice-chatbot/components/voice-chatbot-realistic.tsx:69-83 | at most one settle timer is ever live, and it is the one the ref holds |
| RealisticChatbot.RealisticChatbot.constructor | voice-chatbot/components/voice-chatbot-realistic.tsx:8-26 | the component starts not listening, nothing shown, nothing buffered, no timer |
| RealisticChatbot.RealisticChatbot.InitializeAudio | voice-chatbot/components/voice-chatbot-realistic.tsx:88-156 | a granted microphone starts capture and listening; a refusal shows the permission message |
| RealisticChatbot.RealisticChatbot.OnAudioProcess | voice-chatbot/components/voice-chatbot-realistic.tsx:128-132 | the volume is the frame's, nothing else changes |
| RealisticChatbot.RealisticChatbot.OnDataAvailable | voice-chatbot/components/voice-chatbot-realistic.tsx:140-144 | only a chunk holding bytes is buffered |
| RealisticChatbot.RealisticChatbot.DetectSilence | voice-chatbot/components/voice-chatbot-realistic.tsx:64-85 | the effect is `SettleStep`; a timer is armed only when none is pending and one is cancelled whenever the timestamp is dropped |
| RealisticChatbot.RealisticChatbot.RestartRecording | voice-chatbot/components/voice-chatbot-realistic.tsx:278-298 | a recorder starts only on a stream and when none runs; listening resumes and processing ends on every path |
| RealisticChatbot.RealisticChatbot.ReceiveReply | voice-chatbot/components/voice-chatbot-realistic.tsx:230-267 | what is shown afterwards is `ReplyDisplay` of what was shown |
| RealisticChatbot.RealisticChatbot.HandleTranscript | voice-chatbot/components/voice-chatbot-realistic.tsx:190-232 | what is shown is `TurnDisplay`; a reply is asked for exactly with speech; a blank transcript restarts the recorder at once |
| RealisticChatbot.RealisticChatbot.StopRecorder | voice-chatbot/components/voice-chatbot-realistic.tsx:168-170 | a running recorder is stopped and logged once; a stopped one is left alone; nothing else changes |
| RealisticChatbot.RealisticChatbot.FinishTurn | voice-chatbot/components/voice-chatbot-realistic.tsx:190-274 | whatever the transcript and reply, the turn ends listening and not processing, recording exactly when a stream exists; a reply is asked for exactly with speech; what is shown is `TurnDisplay` |
| RealisticChatbot.RealisticChatbot.BeginTurn | voice-chatbot/components/voice-chatbot-realistic.tsx:162-188 | busy, error cleared, recorder stopped before any request, and the whole buffer sealed, emptied and sent for transcription |
| RealisticChatbot.RealisticChatbot.ProcessAudioChunks | voice-chatbot/components/voice-chatbot-realistic.tsx:159-275 | nothing happens with an empty buffer or a turn running; otherwise the turn's requests are `TurnRequests` on the sealed buffer, the display is `TurnDisplay`, and on every path listening resumes and processing ends |
| RealisticChatbot.RealisticChatbot.TimerFires | voice-chatbot/components/voice-chatbot-realistic.tsx:71-75 | the live timer fires once and is dropped with its ref and the timestamp; with a buffer and no turn running it runs a whole turn: the buffer is emptied, the requests are the capture stop, `TurnRequests` on the sealed buffer and the restart, the display is `TurnDisplay`, and listening resumes; otherwise nothing but the timer changes |
| ServerSentEvents.Split | voice-chatbot/components/voice-chatbot-realistic.tsx:249 | `split("\n")` gives at least one piece and no piece holds a newline |
| ServerSentEvents.LineContent | voice-chatbot/components/voice-chatbot-realistic.tsx:251-264 | a line not starting with `data: ` adds nothing; a line that adds text starts with `data: `, is not `[DONE]`, and adds exactly the content its payload parses to |
| ServerSentEvents.JoinSplit | voice-chatbot/components/voice-chatbot-realistic.tsx:249 | splitting a chunk on newlines loses nothing: joining the pieces gives it back |
| ServerSentEvents.SplitAtNewline | voice-chatbot/components/voice-chatbot-realistic.tsx:249 | a line ended by a newline splits into that line and the rest |
| ServerSentEvents.SplitNoNewline | voice-chatbot/components/voice-chatbot-realistic.tsx:249 | a chunk without a newline is one line |
| ServerSentEvents.LinesContentConcat | voice-chatbot/components/voice-chatbot-realistic.tsx:249-265 | the text of two runs of lines is the text of each, in order |
| ServerSentEvents.ChunkContentsConcat | voice-chatbot/components/voice-chatbot-realistic.tsx:242-266 | the per-chunk texts of two runs of chunks are those of each run, in order |
| ServerSentEvents.StreamContentSnoc | voice-chatbot/components/voice-chatbot-realistic.tsx:242-266 | one more chunk read adds its text after everything read before |
| ServerSentEvents.StreamContentConcat | voice-chatbot/components/voice-chatbot-realistic.tsx:242-266 | the text of two runs of chunks is the text of each, in order |
| ServerSentEvents.FrameLines | voice-chatbot/components/voice-chatbot-realistic.tsx:249 | a frame splits into its `data: ` line and an empty line, and the rest of the chunk splits on its own |
| ServerSentEvents.FrameLinesContent | voice-chatbot/components/voice-chatbot-realistic.tsx:249-264 | the lines of one frame contribute exactly its payload's text |
| ServerSentEvents.FrameThenRest | voice-chatbot/components/voice-chatbot-realistic.tsx:249-264 | a `data: ` frame followed by more lines contributes its delta, then the rest |
| ServerSentEvents.DoneFrameAddsNothing | voice-chatbot/components/voice-chatbot-realistic.tsx:253 | the `[DONE]` frame adds no text |
| ServerSentEvents.SingleFrame | voice-chatbot/components/voice-chatbot-realistic.tsx:249-260 | a chunk holding one frame whose delta has non-empty content adds exactly that content |
| ServerSentEvents.FrameThenDone | voice-chatbot/components/voice-chatbot-realistic.tsx:249-260 | such a frame followed by `[DONE]` in the same chunk adds exactly that content |
| ServerSentEvents.StreamOfThree | voice-chatbot/components/voice-chatbot-realistic.tsx:242-266 | three chunks read in turn add their texts in arrival order |
| ServerSentEvents.ThreeFramesThenDone | voice-chatbot/components/voice-chatbot-realistic.tsx:242-266 | a chunk of three delta frames and `[DONE]` shows the three deltas in order |
| ServerSentEvents.ReadLine | voice-chatbot/components/voice-chatbot-realistic.tsx:251-264 | the loop over one chunk's lines appends exactly that chunk's text |
| ServerSentEvents.ReadChunk | voice-chatbot/components/voice-chatbot-realistic.tsx:246-265 | the loop over one decoded chunk's lines adds exactly the text the chunk carries |
| ServerSentEvents.ReadStream | voice-chatbot/components/voice-chatbot-realistic.tsx:242-266 | the reader loop's reply is the text of every chunk in arrival order |
| WebSpeechChatbot.InitialHistoryWellFormed | voice-chatbot/components/voice-chatbot-web-speech.tsx:16-21 | the history starts as the system prompt alone, well formed |
| WebSpeechChatbot.AppendTurn | voice-chatbot/components/voice-chatbot-web-speech.tsx:306-310 | an answered turn keeps every earlier entry and adds the user turn, then the assistant turn |
| WebSpeechChatbot.AppendTurnKeepsShape | voice-chatbot/components/voice-chatbot-web-speech.tsx:306-310 | an answered turn keeps every earlier entry, adds the user then the assistant turn, and keeps the history well formed |
| WebSpeechChatbot.HistoryAfterShape | voice-chatbot/components/voice-chatbot-web-speech.tsx:306-310 | after n answered turns the history holds 2n + 1 entries with the n-th exchange at 2n - 1 and 2n |
| WebSpeechChatbot.BytesRoundTrip | voice-chatbot/components/voice-chatbot-web-speech.tsx:240-243 | bytes survive the trip through a binary string |
| WebSpeechChatbot.BinaryStringRoundTrip | voice-chatbot/components/voice-chatbot-web-speech.tsx:313-317 | a binary string survives the trip through bytes |
| WebSpeechChatbot.BytesToBinaryString | voice-chatbot/components/voice-chatbot-web-speech.tsx:236-246 | the loop gives one character per byte, in order, with the byte as its code |
| WebSpeechChatbot.BinaryStringToBytes | voice-chatbot/components/voice-chatbot-web-speech.tsx:313-317 | the array loop stores each character's code modulo 256, in order |
| WebSpeechChatbot.TurnActions | voice-chatbot/components/voice-chatbot-web-speech.tsx:257-332 | a turn asks for a transcription first, the backend exactly when there is a transcript, and plays exactly the bytes `atob` decoded when everything succeeded |
| WebSpeechChatbot.WebSpeechChatbot.constructor | voice-chatbot/components/voice-chatbot-web-speech.tsx:12-32 | the component starts idle with the initial history |
| WebSpeechChatbot.WebSpeechChatbot.OnAudioProcess | voice-chatbot/components/voice-chatbot-web-speech.tsx:156-160 | the volume is the frame's, nothing else changes |
| WebSpeechChatbot.WebSpeechChatbot.DetectSilence | voice-chatbot/components/voice-chatbot-web-speech.tsx:77-92 | the effect's step is the shared `SilenceEffect` |
| WebSpeechChatbot.WebSpeechChatbot.OnDataAvailable | voice-chatbot/components/voice-chatbot-web-speech.tsx:169-173 | only a chunk holding bytes is buffered |
| WebSpeechChatbot.WebSpeechChatbot.StartRecording | voice-chatbot/components/voice-chatbot-web-speech.tsx:114-182 | buffer and timestamp reset; capture starts exactly when granted |
| WebSpeechChatbot.WebSpeechChatbot.StopRecording | voice-chatbot/components/voice-chatbot-web-speech.tsx:341-348 | capture released once, recording over |
| WebSpeechChatbot.WebSpeechChatbot.ToggleRecording | voice-chatbot/components/voice-chatbot-web-speech.tsx:105-111 | stops when recording or processing, releasing capture once; otherwise resets and starts capture exactly when granted; logs exactly the capture action taken; volume, history, busy flag and pending playback are kept |
| WebSpeechChatbot.WebSpeechChatbot.ProcessAudio | voice-chatbot/components/voice-chatbot-web-speech.tsx:185-338 | nothing happens with no chunk; otherwise capture is released first, the actions are `TurnActions` on the sealed blob, the history grows by one exchange exactly when answered, and the turn ends not busy |
| WebSpeechChatbot.WebSpeechChatbot.BeginTurn | voice-chatbot/components/voice-chatbot-web-speech.tsx:186-257 | busy, capture released, and the sealed blob sent for transcription |
| WebSpeechChatbot.WebSpeechChatbot.HandleTranscript | voice-chatbot/components/voice-chatbot-web-speech.tsx:257-332 | the backend is asked exactly with a transcript; an answer extends the history; playback is pending exactly when it started |
| WebSpeechChatbot.WebSpeechChatbot.OnPlaybackEnded | voice-chatbot/components/voice-chatbot-web-speech.tsx:326-331 | the end of playback starts a fresh recording |
| OpenAiChatbot.TrimContext | voice-chatbot/components/voice-chatbot-openai.tsx:181-187 | more than five chunks are cut to the last two; otherwise the buffer is kept; the result is always a suffix of at most five |
| OpenAiChatbot.TranscriptPiece | voice-chatbot/components/voice-chatbot-openai.tsx:176-178 | a transcription adds a space and its text exactly when it succeeded with a non-empty text |
| OpenAiChatbot.TranscriptSkipsEmpty | voice-chatbot/components/voice-chatbot-openai.tsx:176-178 | failed and empty transcriptions leave the shown text unchanged |
| OpenAiChatbot.TranscriptPiecesConcat | voice-chatbot/components/voice-chatbot-openai.tsx:176-178 | the pieces added by two runs of transcriptions are those of each run, in completion order |
| OpenAiChatbot.TranscriptConcat | voice-chatbot/components/voice-chatbot-openai.tsx:176-178 | the shown text of two runs of transcriptions is the text of each, in completion order |
| OpenAiChatbot.OpenAiChatbot.constructor | voice-chatbot/components/voice-chatbot-openai.tsx:7-21 | the component starts idle with empty text and buffer |
| OpenAiChatbot.OpenAiChatbot.OnAudioProcess | voice-chatbot/components/voice-chatbot-openai.tsx:110-114 | the volume is the frame's, nothing else changes |
| OpenAiChatbot.OpenAiChatbot.ProcessAudioChunk | voice-chatbot/components/voice-chatbot-openai.tsx:146-172 | a request starts exactly when none is in flight and the buffer is not empty, and sends the whole buffer in push order |
| OpenAiChatbot.OpenAiChatbot.OnTranscription | voice-chatbot/components/voice-chatbot-openai.tsx:174-187 | the text grows by `TranscriptPiece`, the buffer becomes `TrimContext` of itself, and no request is in flight |
| OpenAiChatbot.OpenAiChatbot.OnDataAvailable | voice-chatbot/components/voice-chatbot-openai.tsx:123-132 | a chunk holding bytes is buffered and starts a request exactly when none is in flight |
| OpenAiChatbot.OpenAiChatbot.StartRecording | voice-chatbot/components/voice-chatbot-openai.tsx:68-143 | text and buffer reset; capture starts exactly when granted |
| OpenAiChatbot.OpenAiChatbot.StopRecording | voice-chatbot/components/voice-chatbot-openai.tsx:191-204 | capture released, then the leftover buffer sent exactly when non-empty and no request is in flight |
| OpenAiChatbot.OpenAiChatbot.ToggleRecording | voice-chatbot/components/voice-chatbot-openai.tsx:59-65 | when recording, releases capture and then sends the leftover buffer exactly when it is non-empty and no request is in flight; otherwise resets text and buffer and starts capture exactly when granted; a request in flight does not matter; the volume is kept |
| EnhancedChatbot.EnhancedChatbot.constructor | voice-chatbot/components/voice-chatbot-enhanced.tsx:8-16 | the component starts idle, no timer, a fresh recorder hook |
| EnhancedChatbot.EnhancedChatbot.Mount | voice-chatbot/components/voice-chatbot-enhanced.tsx:18-24 | recording starts (unless refused) and listening begins either way; the `isRecording` the mount render saw is kept for the cleanup; nothing is requested |
| EnhancedChatbot.EnhancedChatbot.Unmount | voice-chatbot/components/voice-chatbot-enhanced.tsx:26-33 | the cleanup stops recording exactly when the mount render saw recording, and cancels any pending timer; buffer, flags, response and requests are kept |
| EnhancedChatbot.EnhancedChatbot.ProcessingEffect | voice-chatbot/components/voice-chatbot-enhanced.tsx:47-60 | afterwards a timer is pending exactly when the volume is low while listening and not loading; a pending timer is never replaced |
| EnhancedChatbot.EnhancedChatbot.AppendStream | voice-chatbot/components/voice-chatbot-enhanced.tsx:95-108 | the reader loop appends every chunk to the response in arrival order |
| EnhancedChatbot.EnhancedChatbot.RunTurn | voice-chatbot/components/voice-chatbot-enhanced.tsx:66-112 | the try block completes exactly with audio and a readable reply; then listening and recording resume, otherwise both are off |
| EnhancedChatbot.EnhancedChatbot.ProcessAudioAsWritten | voice-chatbot/components/voice-chatbot-enhanced.tsx:63-124 | as written: past the guard, no request is made without audio and exactly one transcription request of the sealed chunks with it; with no audio, a failed request or a failed read the turn ends neither recording nor listening; a completed turn listens again, records unless refused, and has appended the streamed text |
| EnhancedChatbot.EnhancedChatbot.ProcessAudio | voice-chatbot/components/voice-chatbot-enhanced.tsx:63-124 | corrected: past the guard, the same requests and appended text as written, and afterwards the component listens, is not loading, and records unless refused |
| EnhancedChatbot.EnhancedChatbot.LiveTimerIsRef | voice-chatbot/components/voice-chatbot-enhanced.tsx:47-60 | a live timer is the only one, and it is the one the ref holds |
| EnhancedChatbot.EnhancedChatbot.TimerFires | voice-chatbot/components/voice-chatbot-enhanced.tsx:51-54 | as written: the live timer fires once and is dropped with its ref, after running the `processAudio` of the render that armed it; armed while recording, the turn requests a transcription exactly when there is audio and appends the streamed text; no audio, a failed request or a failed read ends neither listening nor recording, a completed turn listens again and records unless refused; armed while not recording, nothing else changes |
| EnhancedChatbot.EnhancedChatbot.TimerFiresCorrected | voice-chatbot/components/voice-chatbot-enhanced.tsx:51-54 | corrected: the same timer running the corrected `processAudio`, with the same requests and appended text; after any turn armed while recording the component listens, is not loading, and records unless refused |
| EnhancedChatbot.FailedRequestLeavesComponentDeaf | voice-chatbot/components/voice-chatbot-enhanced.tsx:115-122 | a granted microphone, one chunk, a silent frame that arms the timer, the timer firing and a failed `/api/chat` leave the as-written component neither listening nor recording, with no timer, one transcription request of that chunk, and unable to arm a timer again |
| EnhancedChatbot.UnmountStopsThroughHook | voice-chatbot/components/voice-chatbot-enhanced.tsx:26-33 | after a granted mount, the component's cleanup leaves the recorder running because the mount render saw recording off; the hook's cleanup at the same unmount stops it, and no timer is live |
| OpenAiClient.GetEnv | tts/src/openai.hpp:52-54 | an unset variable reads as the empty string, a set one as its value |
| OpenAiClient.GetEnvElse | tts/src/openai.hpp:58-61 | an unset or empty variable gives the default; otherwise its value |
| OpenAiClient.IsEnvDefined | tts/src/openai.hpp:63-65 | true exactly when the variable is set and non-empty, which is when `get_env_else` ignores its default |
| OpenAiClient.Lower | tts/src/openai.hpp:104 | ASCII capitals become small letters, every other character is kept |
| OpenAiClient.LowerAll | tts/src/openai.hpp:102-105 | a string is lowered character by character, keeping its length |
| OpenAiClient.LexBeforeTail | tts/src/openai.hpp:100-106 | two strings that begin with the same character compare as their tails do |
| OpenAiClient.CaseInsensitiveLess | tts/src/openai.hpp:100-106 | `lexicographical_compare` with the `tolower` element order: nothing comes before the empty string, and the empty string comes before every other |
| OpenAiClient.CaseInsensitiveLessIsLexOrder | tts/src/openai.hpp:100-106 | the comparator is the lexicographic order of the lower-cased strings |
| OpenAiClient.CaseOnlyDifferenceIsEquivalence | tts/src/openai.hpp:100-106 | strings differing only in ASCII case are neither less than the other |
| OpenAiClient.CaseInsensitiveLessAsymmetric | tts/src/openai.hpp:100-106 | the comparator is asymmetric |
| OpenAiClient.CaseInsensitiveLessTransitive | tts/src/openai.hpp:100-106 | the comparator is transitive |
| OpenAiClient.CaseInsensitiveLessTotal | tts/src/openai.hpp:100-106 | of two strings with different lower-cased forms, one is less |
| OpenAiClient.FindFirstNotOf | tts/src/openai.hpp:172 | the first position holding no leading blank, or none |
| OpenAiClient.FindLastNotOf | tts/src/openai.hpp:173 | the last position holding no trailing blank, or none |
| OpenAiClient.FindColon | tts/src/openai.hpp:167 | the first colon's position, or none |
| OpenAiClient.TrimLeading | tts/src/openai.hpp:172 | drops exactly the leading spaces and tabs; all blank gives the empty text |
| OpenAiClient.TrimTrailing | tts/src/openai.hpp:173 | drops exactly the trailing spaces, tabs, CR and LF; all blank gives the empty text |
| OpenAiClient.TrimIsTrimmed | tts/src/openai.hpp:172-175 | a trimmed key or value starts and ends with no blank |
| OpenAiClient.FindColonFirst | tts/src/openai.hpp:167 | a colon after a colon-free prefix is the one found |
| OpenAiClient.TrimKeepsColonFree | tts/src/openai.hpp:169-173 | trimming keeps a key colon-free |
| OpenAiClient.ParseHeaderLine | tts/src/openai.hpp:166-175 | a line yields a header exactly when it holds a colon; the key is colon-free and both parts are trimmed |
| OpenAiClient.HeaderUpdate | tts/src/openai.hpp:168-177 | a line that yields no field leaves the headers as they were; a field inserts or overwrites exactly its key with its value, and every other header keeps its value |
| OpenAiClient.TrimLeadingPadding | tts/src/openai.hpp:172 | leading padding before a non-blank text is removed, nothing more |
| OpenAiClient.TrimTrailingPadding | tts/src/openai.hpp:173 | trailing padding after a non-blank text is removed, nothing more |
| OpenAiClient.TrimRemovesPadding | tts/src/openai.hpp:172-175 | trimming a padded trimmed text gives it back |
| OpenAiClient.TrimAllPadding | tts/src/openai.hpp:172-175 | a key or value made only of blanks trims to the empty text |
| OpenAiClient.HeaderLineRoundTrip | tts/src/openai.hpp:163-179 | a header written as `name: value\r\n` with any padding parses back to exactly that name and value |
| OpenAiClient.Transfer.constructor | tts/src/openai.hpp:194-195 | a transfer starts with an empty body and no headers |
| OpenAiClient.Transfer.WriteCallback | tts/src/openai.hpp:156-161 | consumes size times nmemb bytes and appends exactly them to the body |
| OpenAiClient.Transfer.HeaderCallback | tts/src/openai.hpp:163-179 | consumes the whole line and updates the headers as `HeaderUpdate` says |
| OpenAiClient.MakeRequest | tts/src/openai.hpp:181-245 | a curl init failure throws "Failed to initialize curl" with exceptions on and gives status -1 with that text with them off; an unsupported method does the same with its own message; a completed transfer gives its status and body; a failed one throws its error text, or gives its status with that text |
| OpenAiClient.DigitsRoundTrip | tts/src/openai.hpp:420 | the decimal digits of a status code read back as that code |
| OpenAiClient.Digits | tts/src/openai.hpp:420 | `std::to_string` of a status code is a non-empty run of decimal digits |
| OpenAiClient.OpenAI.FromEnvironment | tts/src/openai.hpp:378-380 | the key and organization come from OPENAI_API_KEY and OPENAI_ORGANIZATION, and exceptions are on |
| OpenAiClient.OpenAI.SetThrowException | tts/src/openai.hpp:395-397 | sets the flag and nothing else |
| OpenAiClient.OpenAI.CheckStatus | tts/src/openai.hpp:418-426 | a 2xx response's body goes to the parser; otherwise it throws with the status when exceptions are on, and gives the null `Json()` when off |
| OpenAiClient.OpenAI.Post | tts/src/openai.hpp:411-427 | the reply reaches the parser exactly when curl started and the status is 2xx, and either the transfer completed or exceptions are off; the parser then gets the body or the transfer's error text; with exceptions on the gate never answers the null `Json()`, and with them off the gate itself throws nothing |
| OpenAiClient.OpenAI.Get | tts/src/openai.hpp:429-444 | the same gate as `post` |
| OpenAiClient.OpenAI.DeleteReq | tts/src/openai.hpp:446-461 | the same gate as `post` |
| TtsServer.ValidateStartup | tts/src/MyServer.cpp:98-116 | the server listens exactly when both addresses are set and both ports lie in 1024..65535; otherwise the first failing check, in order, is the reason |
| TtsServer.DefaultsNeverListen | tts/src/MyServer.cpp:78-116 | with the default option list the server never starts: the address is reported missing first, then the socket address, then the port 0, then the socket port 0 |

## Left out

- Devices: the microphone stream, `AudioContext` and `MediaRecorder` internals, and the dot animation and JSX rendering. Capture is one flag, and frames and chunks are inputs.
- Network I/O: `fetch`, the WebSocket to the speech server, and the Hugging Face and OpenAI services. Each is an `Action` with an outcome parameter.
- `btoa`, `atob`, `TextDecoder` and `JSON.parse` are foreign. `atob` and the frame parser are function parameters; base64 text itself is not modelled.
- JavaScript strings are UTF-16; the model uses Dafny characters.
- The last `dataavailable` event that `MediaRecorder.stop()` delivers after a turn has sealed the buffer is not modelled. It is an ordinary `OnDataAvailable` call at any later time.
- The interleaving of React renders and effects is not modelled, beyond the split of async handlers at their first `await`. Effects run when the model calls them.
- `voice-chatbot/app/page.tsx`, `voice-chatbot/server/tts-server.js` and `tts/src/base64.hpp` are not part of this model.
- The rest of `tts/src/openai.hpp` is not part of this model: the endpoint wrappers, `url_encode`, `CurlWrapper`, and the URL and JSON payload that a request carries.
- The Windows branch of `get_env` is not modelled; only the POSIX branch is.
- In `voice-chatbot-web-speech.tsx`, the request to the local backend carries the whole history followed by the user turn; the model records only the transcript it carries, in `ReplyRequested`.
- OpenAiClient.OpenAI.Post: stops at the status gate. The `json_parse` of the body that passes it, and the `nlohmann::json::parse_error` it throws on a body that is not JSON whatever `throw_exception_` is, are not modelled: `Parsed` only names the text handed to the parser, so "throws nothing with exceptions off" is a statement about the gate alone.
- OpenAiClient.OpenAI.Get: the same as `post`; the parse and its exception are not modelled.
- OpenAiClient.OpenAI.DeleteReq: the same as `post`; the parse and its exception are not modelled.
- The request handler and socket forwarding of `tts/src/MyServer.cpp` are not part of this model, nor is the parsing of command-line options into properties. The options other than the two addresses and the two ports are passed on unchecked.
- OpenAiClient.Lower: leaves every character other than `A`..`Z` unchanged, as `tolower` does in the C locale; calling `tolower` on a negative `char` (bytes above 0x7F where `char` is signed) is undefined in C++ and is not modelled.
- OpenAiClient.Transfer.WriteCallback: requires `size * nmemb` to fit the data, so the `size_t` overflow of the product is not modelled.
- WebSpeechChatbot.WebSpeechChatbot.HandleTranscript: a transcription response that is not `ok` is only logged, and its JSON is read anyway. The outcome `Heard` stands for any response whose `data[0]` is read; `SpeechToTextFailed` stands for a rejected request or unreadable JSON, both of which end in the `catch` block.

## Findings

| source | as written | input that shows it | evidently intended | confidence | as-written member | corrected member |
|---|---|---|---|---|---|---|
| voice-chatbot/components/voice-chatbot-enhanced.tsx:115-122 | the `finally` block tests the `isRecording` captured by the render that armed the timer; the guard at line 64 has just found it true, so recording and listening are never restarted after a turn that did not complete | the microphone is granted, one chunk is recorded, the volume drops so the timer fires, and `/api/chat` fails | restart recording and resume listening whenever recording is stopped at the end of the turn | not executed | EnhancedChatbot.EnhancedChatbot.ProcessAudioAsWritten, EnhancedChatbot.EnhancedChatbot.TimerFires, EnhancedChatbot.FailedRequestLeavesComponentDeaf | EnhancedChatbot.EnhancedChatbot.ProcessAudio, EnhancedChatbot.EnhancedChatbot.TimerFiresCorrected |

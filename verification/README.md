# MONJED call relay: a Dafny model

MONJED relays a phone-style call between a caller page and one or more
operator pages through a WebSocket server (server.js). The caller's audio is
transcribed and translated to Arabic for the operators, and operators' Arabic
replies are translated back and synthesised for the caller. The server keeps
one session per call id in `calls`: the caller socket, the operator sockets,
a `processing` flag that is meant to allow one transcription run at a time,
and the detected language.

The model covers:

- `JsText`: the JavaScript semantics the code leans on. This means truthiness
  of optional strings, `trim` with the ECMAScript white-space set,
  `toLowerCase` on ASCII letters, and the leading run that `split(...)[0]`
  yields.
- `Lang`: `normalizeLang`.
- `Protocol`: the outbound messages.
- `Relay`: the registry as a class `CallRegistry` with the fields `calls`,
  `outbox` and `pending`. Sockets are `Connection` objects; everything
  written to a socket is appended to `outbox`. `pending` counts the
  `processAudioFile` runs suspended on the speech-to-text request.
  - The handlers `register`, `close`, `set-language`, `audio-chunk`,
    `audio-file` and `operator-reply` are modelled.
  - `processAudioFile` is split at its first `await` into `BeginAudio` and
    `FinishAudio`.
- `Reply`: the branch choice of `operator-reply`.
- `Transcript`: the steps of the transcription pipeline after the
  transcript is known.
- `CallerClock`: `formatTime` of the caller page.
- `OperatorView`: the operator page's language label and its two text panes
  as a class `OperatorPage`, driven by the messages it receives and by its
  clear button.

Each stateful method is specified by a value-level function or predicate, and
the lemmas beside it state what the source promises. `CallRegistry.Valid` is
the registry invariant every handler keeps: every stored language is null or
a code, no session buffers audio, a raised `processing` flag always has a
pending run behind it, and no transcription or language-changed event is ever
sent.

Where the code and its documented intent differ, the model follows the code:

- `close` does not set `lastUpdated` (server.js:489-505).
- `normalizeLang` can return `""` (for `"-en"`) and the sentinel `"und"` (for
  `"und-Latn"`), because the sentinel test comes before the split
  (server.js:54-55).
- Every non-blank transcript ends in the `Transcription failed` broadcast.
  `isSpam` at server.js:189 is never declared, so the `ReferenceError` is
  caught at server.js:333. This is why `Valid` can promise that no
  transcription or language-changed event is sent.
- `close` lowers `processing` while a run is still in flight (server.js:496).
  So one call can have two runs in flight (`Relay.CloseDuringTranscription`).

## Model

| member | source | states |
|---|---|---|
| JsText.Trim | server.js:53 | no white space is left at either end; the result is empty exactly when the input is all white space |
| JsText.TrimIsMiddle | server.js:53 | the trim is the input with an all-white-space margin cut from each end |
| JsText.Lower | server.js:53 | `toLowerCase` on ASCII: same length, each capital `A`-`Z` lowered, every other character kept |
| JsText.TakeWhile | server.js:55 | the result is the longest prefix whose characters all satisfy the test, as `split(/[^a-z]/)[0]` gives |
| JsText.TrimLowerCommute | server.js:53 | trimming and lowercasing may be done in either order |
| JsText.TrimIgnoresPadding | server.js:53 | white space around a value does not change its trim |
| Lang.NormalizeLang | server.js:51-56 | null exactly for a falsy, blank or sentinel input (`unknown`, `und`, `undefined`, `null` after trim and lowercase); otherwise the longest `a`-`z` prefix of the trimmed, lowercased input, always null or a code |
| Lang.NormalizeBlank | server.js:53-54 | a white-space-only input gives null |
| Lang.NormalizeFixedPoint | server.js:51-56 | a code comes back unchanged exactly when it is non-empty and not a sentinel |
| Lang.NormalizeTwice | server.js:51-56 | normalising a result again returns it, except that `""` and sentinel results become null |
| Lang.NormalizeRegionTag | server.js:55 | `"EN-US"` gives `"en"` |
| Lang.NormalizeLeadingSeparator | server.js:54-55 | `"-en"` gives the empty code, not null |
| Lang.NormalizeSentinelWithScript | server.js:54-55 | `"und-Latn"` gives the sentinel `"und"` |
| Lang.NormalizePaddedSentinel | server.js:53-54 | `"Unknown"` with any white space around it gives null |
| Protocol.ShownLanguage | server.js:324 | `language \|\| 'unknown'` is never empty, is the language whenever that is truthy, and is `unknown` for a null or empty language |
| Reply.SpeaksAsWritten | server.js:426-428 | the reply is spoken as written exactly when the language is null, empty or begins with `ar` |
| Reply.TranslatedText | server.js:457 | a translation with any non-white-space character is sent trimmed and is non-empty; a missing or blank one falls back to the operator's text |
| Reply.ReplyToCaller | server.js:425-481 | an unknown or Arabic session language, or a failed translation, sends the operator's own text tagged `ar`; otherwise the trimmed translation, or the text when the translation is blank, tagged with the session language; the audio is the synthesis of exactly the text sent; a non-empty reply stays non-empty |
| Transcript.IsExactSpam | server.js:129-187 | a transcript that is all white space is never exact spam |
| Transcript.ChannelNameIsSpam | server.js:129-187 | the listed name `mbc`, in capitals and with any white space around it, is detected as exact spam |
| Transcript.ExactSpamIgnoresPaddingAndCase | server.js:129-187 | the exact-phrase test ignores surrounding white space and ASCII case |
| Transcript.FirstToken | server.js:294 | the first word is a prefix of the trimmed reply, holds no white space, and runs up to the first white space or the end: the whole first word |
| Transcript.InterpretReply | server.js:284-296 | parsed replies take the normalised first truthy language field and their translation or the transcript; other replies take the normalised first word and the raw reply or the transcript; the language is always null or a code and the translation is non-empty when the transcript is |
| Transcript.FallbackGuessIsPrefix | server.js:294 | the fallback language guess is a prefix of the reply's trimmed, lowercased text |
| Transcript.TranscriptionEvents | server.js:320-331 | one transcription event showing `language \|\| 'unknown'`, then a language-changed event exactly when the stored language changed |
| Transcript.ChangeBetweenTwoUnknowns | server.js:328-331 | a change from null to `""` is announced although both show as `unknown` |
| Transcript.TranscriptionTail | server.js:194-331 | a spam match on the transcript filters it whatever the chat says; a failed chat request fails; the result is delivered exactly when neither spam stage matches and the chat answered; a delivered result stores the interpreted language, has a non-empty translation, and broadcasts exactly the `TranscriptionEvents` of that language |
| Relay.SelectTargets | server.js:36-38 | the targets are exactly the open sockets of the operator set |
| Relay.ChunkError | server.js:380-387 | `Unknown callId` exactly for a falsy or unknown id, then `No audio data` exactly for a missing or empty payload, otherwise no error |
| Relay.BlankTranscript | server.js:121-124 | a transcript is blank exactly when the request succeeded with a missing or all-white-space text |
| Relay.Detach | server.js:491-504 | closing `ws` removes it from the operator set; if it was the caller, the caller slot and the language are cleared and `processing` is forced off; nothing else changes |
| Relay.DetachAll | server.js:490-505 | the close loop detaches every session and collects exactly one reset notice per session whose caller was `ws` |
| Relay.DetachStep | server.js:491-504 | one pass of the close loop detaches one session and adds exactly its notice |
| Relay.NoticesAreResets | server.js:498-502 | every close notice is a `language-updated` with a null language |
| Relay.StartsAudio | server.js:84-115 | defines a run up to the request: nothing for an unknown call, deferred on a busy session, the error for a missing payload, dropped under 200 bytes, otherwise the flag raised with one more run pending |
| Relay.FinishesAudio | server.js:115-339 | defines a run after the request: a blank transcript is dropped, anything else broadcasts the error, and the flag is lowered with the run no longer pending |
| Relay.RunsAudio | server.js:84-339 | defines a whole run with nothing interleaved: `StartsAudio`'s early exits, otherwise a drop or the error broadcast with sessions and pending runs as before |
| Relay.RunComposes | server.js:84-339 | the part before the request followed by the part after it is a whole `processAudioFile` run |
| Relay.WholeRun | server.js:84-339 | a whole run with nothing interleaved leaves sessions and pending runs as they were, defers exactly on a busy session, ignores exactly an unknown call, and sends at most the error notice to the open operators |
| Relay.CloseDuringTranscription | server.js:87-91 | a caller that closes during a run and re-registers starts a second run on the same call: two runs in flight |
| Relay.CallRegistry.constructor | server.js:30 | the registry starts empty and valid |
| Relay.CallRegistry.Broadcast | server.js:33-39 | the message reaches the open operators of a known session and nothing is sent for an unknown one |
| Relay.CallRegistry.SendToCaller | server.js:42-48 | the message reaches the caller only when the session has an open caller socket |
| Relay.CallRegistry.Register | server.js:351-377 | a missing id gets `missing callId` and changes nothing; otherwise the session is created only if absent, a caller takes the caller slot and is acknowledged, an operator joins the set and is told the current language |
| Relay.CallRegistry.Close | server.js:489-507 | for a socket already closed: every session is detached, none appears or disappears, and exactly one language reset goes out per session whose caller closed |
| Relay.CallRegistry.SetLanguage | server.js:410-419 | unknown ids are ignored; otherwise the normalised value is stored and broadcast as `language-updated`, shown as `unknown` when null or empty |
| Relay.CallRegistry.BeginAudio | server.js:84-115 | unknown call: nothing; busy session: deferred, nothing changes; missing payload: the error is broadcast; under 200 bytes: dropped; otherwise the flag is raised with one more run pending |
| Relay.CallRegistry.FinishAudio | server.js:121-339 | a blank transcript is dropped silently, anything else ends in the error broadcast; the flag is lowered and the run is no longer pending |
| Relay.CallRegistry.Settle | server.js:336-339 | the `finally` lowers the flag and ends the pending run, sending nothing |
| Relay.CallRegistry.ProcessAudio | server.js:84-340 | a run with nothing interleaved is a whole run, and the invariant holds after it |
| Relay.CallRegistry.AudioChunk | server.js:379-392 | the sender gets the first failing check's error and nothing else changes; otherwise the run starts |
| Relay.CallRegistry.AudioFile | server.js:394-399 | only the call id is checked; a missing payload reaches the run and fails there |
| Relay.CallRegistry.RelayReply | server.js:421-484 | an unknown id is answered with `Unknown callId`; otherwise only the open caller receives the chosen reply and no session changes |
| CallerClock.NatToString | public/caller.js:21-22 | `String(n)` is one or more digits, one digit exactly below 10, with no leading zero |
| CallerClock.FormatTime | public/caller.js:19-24 | `formatTime` is at least five characters for every integer |
| CallerClock.IntToString | public/caller.js:21-22 | `String(n)`: digits reading back as `n` for `n >= 0`; a minus sign followed by digits reading back as `-n` for a negative `n` |
| CallerClock.PadStart | public/caller.js:21-22 | the string ends the result, preceded by just enough fill to reach the width |
| CallerClock.JsRem | public/caller.js:22 | JavaScript `%`: the Euclidean remainder for a non-negative dividend, otherwise the negated remainder of its magnitude, in `(-b, 0]` |
| CallerClock.ParsePrinted | public/caller.js:21-22 | the printed number reads back as itself |
| CallerClock.PaddedValue | public/caller.js:21-22 | zero padding keeps a printed number all digits and keeps its value |
| CallerClock.FormatTimeFields | public/caller.js:19-24 | for `ms >= 0`: minutes of at least two digits, a colon, seconds of exactly two digits; the seconds read `floor(ms/1000) mod 60` and the minutes `floor(floor(ms/1000)/60)`, never cut |
| CallerClock.FormatTimeRoundTrip | public/caller.js:19-24 | reading `mm:ss` back gives `60*mm + ss = floor(ms/1000)` |
| CallerClock.FormatTimeUnderOneSecond | public/caller.js:20-23 | any `ms` in `[0, 1000)` shows `00:00` |
| CallerClock.FormatTimeNegative | public/caller.js:20-23 | `ms` in `[-1000, 0)` shows `-1:-1` |
| OperatorView.LangName | public/operator.js:3-22 | only codes of two or three characters are listed, each with a non-empty name |
| OperatorView.DisplayLang | public/operator.js:49-52 | a falsy code shows the placeholder; a listed code shows its Arabic name then the code in parentheses; any other code is shown as is; never empty |
| OperatorView.AppendPane | public/operator.js:79-89 | a pane at the placeholder is replaced; any other keeps its text, then one space, then the new text |
| OperatorView.AfterTranscription | public/operator.js:74-94 | the label shows `displayLang` of `detectedLanguage \|\| 'unknown'` and each pane receives its text, a missing one as `''` |
| OperatorView.AfterLanguage | public/operator.js:96-104 | a falsy value or `null` resets the label to the placeholder, otherwise it shows `displayLang` of the value; the panes keep their text |
| OperatorView.AfterRegistered | public/operator.js:106-111 | only a truthy language changes the label |
| OperatorView.Cleared | public/operator.js:163-168 | both panes show the placeholder and the label is kept |
| OperatorView.Receive | public/operator.js:70-117 | only a transcription changes the panes; an error, an operator reply and a caller acknowledgement change nothing |
| OperatorView.OperatorPage.OnTranscription | public/operator.js:74-94 | the displayed strings become `AfterTranscription` of the old ones |
| OperatorView.OperatorPage.OnLanguage | public/operator.js:96-104 | the displayed strings become `AfterLanguage` of the old ones |
| OperatorView.OperatorPage.OnRegistered | public/operator.js:106-111 | the displayed strings become `AfterRegistered` of the old ones |
| OperatorView.OperatorPage.Clear | public/operator.js:163-168 | the displayed strings become `Cleared` of the old ones |
| OperatorView.OperatorPage.OnMessage | public/operator.js:70-117 | every server message updates the page as `Receive` says |
| OperatorView.SentinelsShownAsIs | public/operator.js:49-52 | `unknown`, `und`, `undefined` and `null` are not listed and are shown as they are |
| OperatorView.ListedCodeShown | public/operator.js:3-52 | `en` shows as its Arabic name followed by `(en)` |
| OperatorView.TranscriptionAfterClear | public/operator.js:79-89 | after a clear, a transcription shows exactly its own text and translation |
| OperatorView.IgnoredMessages | public/operator.js:106-116 | errors, operator replies and a `registered` without a language leave the page as it was |
| OperatorView.FeedFromPlaceholder | public/operator.js:79-89 | a pane starting at the placeholder shows all texts received, joined by single spaces, unless a text is the placeholder itself |
| OperatorView.ReceiveTranscriptions | public/operator.js:74-94 | a run of transcriptions feeds each pane its texts in order, and the label names the last one's language |
| OperatorView.PanesAfterClear | public/operator.js:74-94 | after a clear, the panes show every transcription since, joined by single spaces |

## Left out

- The speech-to-text, chat and speech-synthesis HTTP calls are not modelled. Their results are inputs: `Stt`, `Transcript.ChatReply`, `Reply.Translation` and a `tts` function.
- File-system writes, unlinks and directory creation are side effects only. The cleanup in `finally` is kept as `Settle`.
- `Relay.CallRegistry.BeginAudio`: the 300 ms `setTimeout` retry on a busy session is the outcome `Deferred`, with no state change; the later retry is not modelled.
- `Relay.CallRegistry.BeginAudio`: on the early exits (missing payload, short payload) the flag is raised and lowered before anything else can run. The model states it as never raised.
- An exception from the file system before the `try` (server.js:93-96) would leave `processing` raised. This is not modelled.
- The regular-expression spam stages (server.js:199-262, 299-312) are the abstract predicates of `Transcript.TranscriptionTail`. The exact-phrase list is concrete, but its result is unused in the source.
- Base64 decoding and JSON parsing of inbound messages are inputs: the decoded byte length and the parsed fields. A message that fails to parse is dropped before any handler runs, as in the source.
- The express and ws server setup and the environment loading are not modelled.
- The `audio-end` handler is not modelled: nothing ever appends to a session's `buffer`, so the flush never runs. `Valid` keeps every buffer empty.
- The `Unknown message type` reply to other message types is not modelled.
- `ws.callId` and `ws.role` are written by `register` but never read, so they are not modelled.
- Call ids that name `Object.prototype` members (such as `constructor`) are treated as absent keys. So are codes like `toString` in `LANGS`. In JavaScript both would find inherited properties.
- `JsText.Lower`: `toLowerCase` is modelled for ASCII letters only. Other characters are kept as they are.
- `Relay.CallRegistry.RelayReply`: the handler awaits the translation and the synthesis, so other handlers may run in between. The model runs it in one step on the state at entry.
- Broadcast order: an `Envelope` carries the set of sockets it reaches. The order in which the sockets of one broadcast are written is not modelled.
- `Relay.CallRegistry.Close`: the close notices are equal as a multiset to `CloseNotices`. Their order, which follows `Object.keys`, is not modelled.
- `Relay.CloseDuringTranscription` covers the caller reconnecting during a run. `Register` also covers an operator joining before the caller, but no scenario lemma walks through that case.
- Operator page: the DOM construction (`populateLangs`) is not modelled, and neither are the connect form, the 2 s reconnect timer, alerts, socket sends, the manual language button and the reply button.
- `OperatorView.OperatorPage.constructor`: the page's initial texts come from its markup. The markup is not part of this model, so the constructor takes them as arguments.
- Caller page: voice-activity detection, recording, timers and DOM are not modelled; only `formatTime` is.
- `CallerClock.FormatTime`: `ms` is modelled as an integer. `Date.now()` differences are integral, and fractional or non-finite inputs are not modelled.

# kari-transcriptor, modelled in Dafny

kari-transcriptor is a small web application that transcribes Spanish speech.
The browser page (`static/js/script.js`) stages an audio file and uploads it. It
then opens an event stream and renders the progress messages. The Flask server
(`app.py`) stores the upload, cuts the sound into chunks and sends the speech
recogniser's answer for each chunk as a stream of JSON messages.

This project models the rules in both programs and proves what they promise.

**Server side**
- `Upload` covers the extension test and the upload handler's ordered checks.
- `Stream` covers the transcription generator. It is written two ways:
  - a method built from loops and early returns, as the generator is written;
  - the pure function `Stream.Schedule`, which maps (WAV or not, where decoding
    fails, few silences or not, per-chunk outcome) to the message sequence.

  The method is proved equal to the function.
- `StreamFacts` states what the stream promises:
  - chunk order;
  - the accumulated text;
  - progress that never decreases;
  - how the stream ends.

**Page side**
- `ClientFiles` holds the pure helpers: the type and size checks, the duration
  advisory, the size rendering and the download name.
- `Client` models the page's state as a value (`PageState`), with one function per
  handler. It also has an invariant that every handler keeps.
- `ClientFacts` states the handlers' promises over those functions.
- `ClientPage.Page` is the same page as an object:
  - Its fields are the script's variables plus the document.
  - Each method updates them step by step.
  - Each method is proved to reach the state that the matching `Client` function
    describes.

**Both sides**
- `Interplay` puts the two programs together. It proves what the page makes of
  the server's replies and messages.

Shared modules:
- `Strings`: ASCII lower-casing, last occurrence, split/join, Python's `strip`,
  decimal rendering.
- `Events`: the message record, whose absent keys are `None`.
- `Wrappers`: `Option`.

## Model

| member | source | states |
|---|---|---|
| Upload.AllowedFile | app.py:19-22 | A name is allowed iff some '.' in it has no '.' after it and the text after that '.' lower-cases to wav, mp3, ogg, flac or m4a |
| Upload.AllowedFileBareExtension | app.py:21-22 | ".wav" is allowed: the part before the dot may be empty |
| Upload.AllowedFileUpperCase | app.py:21-22 | "A.MP3" is allowed: the extension is compared in lower case |
| Upload.AllowedFileLastDotOnly | app.py:21-22 | "cancion.wav.txt" is refused: only the text after the last '.' counts |
| Upload.AllowedFileNoDot | app.py:21-22 | "wav" and "" are refused: a name without '.' never passes |
| Upload.UploadFile | app.py:164-181 | The body cap of line 15 gives the 413 reply iff the body exceeds 100 MiB. The file is stored iff the body fits, a file part exists and its name is allowed; the stored name is the sanitiser's output. Every other reply is one of the three error messages |
| Upload.UploadFileFirstFailure | app.py:165-181 | For a body within the cap, each error is returned exactly when the checks before it passed and its own check failed: no file part, then an empty name, then a name that is not allowed |
| Strings.LastPiece | app.py:41 | `split('.')[-1]` contains no '.', ends the string, and is preceded by a '.' whenever the string has one |
| Strings.JoinAllButLastPiece | static/js/script.js:538 | Splitting on '.', dropping the last piece and joining with '.' gives everything before the last '.' |
| Strings.StripEmptyIffBlank | app.py:138 | `strip()` is empty iff the string is all whitespace |
| Strings.Strip | app.py:138-139 | `strip()` is a slice of the string with only whitespace before and after it, and it neither starts nor ends with whitespace |
| Strings.SplitPiecesFree | static/js/script.js:538 | No piece of `split('.')` contains a '.' |
| Strings.JoinSplit | static/js/script.js:538 | Joining the pieces of `split(c)` with `c` gives back the string |
| Strings.NatToStringRoundTrip | app.py:95 | The decimal rendering of a chunk number or count writes only digits, and reading them back gives the number |
| Stream.TimeSplit | app.py:80-81 | The time split has ceil(len/30000) windows, each non-empty and at most 30 000 ms long |
| Stream.TimeSplitPrefix | app.py:81 | The first k windows concatenate to the first min(30000·k, len) milliseconds, so window k starts at 30000·k |
| Stream.TimeSplitCovers | app.py:81 | The windows concatenated are the whole sound |
| Stream.WindowStartInside | app.py:81 | Every window index below the count starts inside the sound |
| Stream.ChunkProgress | app.py:92 | The progress for chunk index i of total is in [30, 90) |
| Stream.ChunkProgressMonotone | app.py:92 | The progress never decreases as the chunk index grows |
| Stream.IsWavPathIff | app.py:27-44 | The generator treats the stored file as WAV iff its own name has a '.' and the text after the last '.' lower-cases to "wav"; the folder prefix has no effect |
| Stream.ChunkEvents | app.py:91-122 | One chunk sends one to three messages, the first its `transcribing` message numbered i+1 with the chunk's progress; only a raising chunk sends one, and only an API error sends three |
| Stream.ChunkText | app.py:104-120 | What a chunk adds to `whole_text` is empty or ends with a space; it is empty for an exception, an unintelligible chunk and a failed retry |
| Stream.TranscribeBounds | app.py:90-128 | The loop sends at most three messages per chunk, and at least two per chunk when no exception escapes |
| Stream.TranscribeStopped | app.py:143-147 | After an escaping exception the later chunks change nothing |
| Stream.Schedule | app.py:44-147 | Every stream has at least two messages, starts with `loading` for a WAV file and `converting` otherwise, and ends with a terminal message at progress 100 |
| Stream.Generate | app.py:34-147 | The generator's output for a stored file equals `Schedule`, with the WAV test read from the path and the "few silences" test at fewer than 5 chunks |
| Stream.GenerateFrom | app.py:44-147 | With the extension already read: conversion, loading, splitting, the chunk loop and the closing message equal `Schedule`, including the early exception exits |
| Stream.SplitAndTranscribe | app.py:76-141 | After a successful split: `splitting_time` exactly when there were fewer than 5 silence chunks, then `processing` with the chunk count, then the loop's messages, then the closing message |
| Stream.TranscribeChunk | app.py:91-122 | One chunk's body: the `transcribing` message then the outcome's messages (text, chunk error, or API error then the retry's result), the text added, and the escaping exception if any |
| Stream.TranscribeChunks | app.py:90-128 | The chunk loop's messages, accumulated text and stopping exception equal those of `Transcribe` on the recogniser's answers |
| StreamFacts.TranscribeIsBlocks | app.py:90-147 | Without an exception the loop's messages are every chunk's block in order and no chunk raised; otherwise the first raising chunk j gives the exception, and the messages are the blocks of chunks 0..j |
| StreamFacts.ChunkEventsCollected | app.py:95-122 | A chunk's messages hold exactly one `transcribing` message, numbered i+1, and the texts it shows (with trailing space) are exactly what it adds to `whole_text` |
| StreamFacts.TranscribingInOrder | app.py:90-95 | The `transcribing` messages number the chunks 1, 2, 3, … in order, one per chunk reached; without an exception, one per chunk |
| StreamFacts.WholeTextIsShownText | app.py:104-120 | The accumulated text is the concatenation of the texts the stream showed, each followed by a space |
| StreamFacts.WholeTextIsRecognized | app.py:104-120 | Without an exception, the accumulated text is every recognised text, first attempt or retry, in chunk order, each followed by one space |
| StreamFacts.SpacedRecognizedBlank | app.py:138 | The accumulated text is blank iff no chunk was recognised with a non-blank text |
| StreamFacts.ScheduleOpeningFailure | app.py:143-147 | A decoding exception ends the stream with the single exception message; nothing before it is an `error` or a `transcribing` message |
| StreamFacts.ScheduleFinish | app.py:137-141 | Without exceptions the last message is `completed` iff something non-blank was recognised, with the stripped accumulated text; otherwise it is the "nothing transcribed" error at 100 |
| StreamFacts.ScheduleChunkFailure | app.py:95-147 | An exception in chunk j ends the stream with its exception message, right after chunk j's `transcribing` message |
| StreamFacts.ChunkEventsProgress | app.py:92-122 | Every message of one chunk carries that chunk's progress |
| StreamFacts.TranscribeProgress | app.py:90-122 | The loop's messages have non-decreasing progress between 30 and the last chunk's progress |
| StreamFacts.OpeningProgress | app.py:50-84 | The opening messages have non-decreasing progress between 5 and 30 |
| StreamFacts.ScheduleProgressNondecreasing | app.py:50-147 | Every message of every stream carries a progress value, and the values never decrease |
| StreamFacts.ScheduleOpening | app.py:44-62 | A non-WAV file starts with `converting`, then (unless conversion raised) `converted`, then `loading`; a WAV file starts with `loading` |
| StreamFacts.ScheduleSplitsByTime | app.py:77-84 | After `splitting`, `splitting_time` appears iff silence detection gave fewer than 5 chunks; `processing` with the chunk count follows |
| ClientFiles.NameMatches | static/js/script.js:80 | A name the pattern accepts is at least four characters long, the shortest ending being ".wav", ".mp3" or ".ogg" |
| ClientFiles.StagingError | static/js/script.js:77-89 | The type test runs before the size test: a file is refused as unsupported iff its type fails, and as too large iff its type passes and it exceeds 100 MiB; exactly 100 MiB passes |
| ClientFiles.BitRate | static/js/script.js:123-132 | The bit rate comes from the MIME type alone and is 192 for any unlisted type |
| ClientFiles.EstimateMinutes | static/js/script.js:133-137 | The estimate times 7500·bitRate is the size: size/(bitRate·125)/60 |
| ClientFiles.Ceil | static/js/script.js:104 | `Math.ceil`: the least integer at or above its argument |
| ClientFiles.Round | static/js/script.js:109 | `Math.round`: the nearest integer, halves upward |
| ClientFiles.AdvisoryFor | static/js/script.js:102-110 | An advisory exists iff the estimate exceeds 5 minutes; its shown duration is the estimate rounded, and its processing bound is 0.8 of the estimate rounded up |
| ClientFiles.AdvisoryIff | static/js/script.js:102-103 | The advisory appears iff size > 37 500·bitRate |
| ClientFiles.AdvisoryBounds | static/js/script.js:102-110 | An advisory's processing bound ceil(0.8·est) is at least 5 and at most its rounded duration |
| ClientFiles.AdvisoryExample | static/js/script.js:121-138 | 10 MiB of MP3 gives "about 7 min, up to 6 minutes" |
| ClientFiles.UnitIndex | static/js/script.js:146 | The unit index i satisfies 1024^i ≤ bytes < 1024^(i+1) |
| ClientFiles.UnitIndexLargest | static/js/script.js:146 | It is the largest i with 1024^i ≤ bytes |
| ClientFiles.AcceptedSizeUnit | static/js/script.js:141-148 | Every size up to the 100 MiB cap has unit index ≤ 2, inside the 4-entry unit table |
| ClientFiles.Hundredths | static/js/script.js:148 | The shown value is bytes/1024^i rounded to the nearest hundredth |
| ClientFiles.FormatFileSize | static/js/script.js:141-148 | 0 bytes is "0 Bytes"; any other size ends with a space and the unit its unit index selects |
| ClientFiles.DecimalHundredths | static/js/script.js:148 | The shown number reads back as the hundredths it renders: the digits before the '.' give h/100 and the one or two after it give h%100. It has a '.' exactly when h is not whole, and its fraction never ends in 0, as `parseFloat` drops trailing zeros |
| ClientFiles.FormatFileSizeShows | static/js/script.js:141-148 | Before the space and the unit, the text shows bytes/1024^i rounded to hundredths, for the unit index i |
| ClientFiles.FormatFileSizeZero | static/js/script.js:142 | 0 bytes is "0 Bytes" |
| ClientFiles.FormatFileSizeKilobytes | static/js/script.js:141-148 | 1536 bytes is "1.5 KB" (trailing zero dropped) |
| ClientFiles.FormatFileSizeMegabyte | static/js/script.js:141-148 | 1 MiB is "1 MB" |
| ClientFiles.DownloadNameDropsExtension | static/js/script.js:536-540 | With a file chosen, the download name is the name up to its last '.' plus "-transcripcion.txt"; a name without '.' gives "-transcripcion.txt" |
| ClientFiles.DownloadName | static/js/script.js:536-540 | Without a chosen file the name is "transcripcion.txt"; with one it is everything before the name's last '.' followed by "-transcripcion.txt" |
| ClientFiles.DownloadNameWithoutFile | static/js/script.js:536 | With no file chosen the name is "transcripcion.txt" |
| ClientFiles.DownloadNameTwoDots | static/js/script.js:538 | "clase.2024.mp3" gives "clase.2024-transcripcion.txt" |
| Client.Utf16Length | static/js/script.js:369 | A string's `length` counts UTF-16 units: between its code points and twice that |
| Client.AddLog | static/js/script.js:438-469 | A log line is appended iff the details area exists; nothing else changes |
| Client.ShowError | static/js/script.js:472-475 | The error panel is shown with the given message, and nothing else changes |
| Client.CloseStream | static/js/script.js:488-491 | Afterwards no stream is current and the closed one is no longer open; with no current stream the open set is unchanged; nothing else changes |
| Client.InitialIndicators | static/js/script.js:335-344 | `processing` makes max(total, 0) grey indicators, none for an absent total |
| Client.MarkIndicator | static/js/script.js:417-435 | Indicator k (from 1) takes the colour when 1 ≤ k ≤ N; every other indicator, and all of them for an absent or out-of-range k, keep their colour |
| Client.MarkChunk | static/js/script.js:417-435 | Marking a chunk changes only the indicators: the details area, its log, the presence of the chunks panel and its counter stay as they were |
| Client.CreateChunks | static/js/script.js:321-348 | Creating the chunks panel changes only the details area |
| Client.UpdateCounter | static/js/script.js:356-359 | Updating the counter changes only the details area |
| Client.KindTerminal | static/js/script.js:272 | The statuses that close the stream are exactly the `completed` and `error` branches |
| Client.MoveBar | static/js/script.js:302-304 | The progress value changes only the bar |
| Client.InitialValid | static/js/script.js:25-28 | The loaded page satisfies the invariant: at most one advisory, only the current stream open, and a chosen file that passed both checks |
| Client.UpdateUI | static/js/script.js:300-414 | The reducer keeps the stream, the chosen file, the advisories and the cancel button; a non-terminal status also keeps which of the progress and results panels are shown |
| Client.Branch | static/js/script.js:306-414 | Every status branch keeps the same; branches other than `completed` and `error` keep the progress and results panels |
| Client.HandleFiles | static/js/script.js:76-118 | A refused file keeps the chosen one and shows its staging error; an accepted file becomes the chosen one, its panel is shown and the error panel hidden; the stream bookkeeping and the details area stay |
| Client.TranscribeAudio | static/js/script.js:154-196 | Without a chosen file nothing changes; otherwise the run is not aborted, the partial texts are cleared, the progress panel is shown at 5% with the uploading text, the file panel is hidden and the details area holds one start log line |
| Client.StartStream | static/js/script.js:220-262 | The current stream becomes a new one with a fresh id and the file's `/transcribe/` URL; the previous one is closed, a cancel button is shown, and the chosen file, partial texts and details stay |
| Client.OnUploadReply | static/js/script.js:202-216 | A successful reply opens the stream; otherwise the progress panel is hidden and the error panel shows the reply's error, the default upload message for an empty one, or the connection message for an unreadable reply |
| Client.OnMessage | static/js/script.js:264-282 | A `completed` or `error` message closes the stream and removes the cancel button; any other keeps the stream, the open set and the cancel button |
| Client.Deliver | static/js/script.js:272-274 | A message of a stream that is not current changes nothing; no message opens a stream |
| Client.OnStreamError | static/js/script.js:284-296 | An error of a stream that is not current changes nothing; otherwise the stream is closed, the cancel button removed and the loss logged, and the partial texts and progress panel stay |
| Client.Cancel | static/js/script.js:239-259 | Without a cancel button nothing changes; otherwise the stream is closed, the run aborted, the cancel button replaced by one more back button and the cancelled text shown |
| Client.ResetUpload | static/js/script.js:478-502 | Nothing is chosen, no stream or details remain, the four panels are hidden, no cancel button is left, the first advisory is removed, and no stream is opened |
| Client.StepValid | static/js/script.js:220-297 | Every handler keeps the invariant |
| Client.HandleFilesValid | static/js/script.js:102-117 | Choosing a file keeps the invariant |
| Client.OnUploadReplyValid | static/js/script.js:203-216 | The upload reply keeps the invariant |
| Client.StartStreamValid | static/js/script.js:220-262 | Opening a stream keeps the invariant |
| Client.CloseStreamValid | static/js/script.js:488-491 | On a valid page, closing the stream leaves no stream open |
| Client.ResetUploadValid | static/js/script.js:478-502 | Reset keeps the invariant |
| Client.RunValid | static/js/script.js:220-297 | After any sequence of actions the invariant holds and at most one stream is open |
| ClientFacts.HandleFilesRefuses | static/js/script.js:77-89 | A refused file only shows its error, and a file of the wrong type is refused for its type even when also too large |
| ClientFacts.HandleFilesStages | static/js/script.js:91-117 | An accepted file replaces the chosen one, is shown with its name and size, hides the error panel; a long file's advisory replaces the first existing one, a short file leaves them unchanged |
| ClientFacts.HandleFilesCap | static/js/script.js:86-91 | Exactly 104 857 600 bytes is staged; 104 857 601 only shows the error, keeping the chosen file |
| ClientFacts.HandleFilesOneAdvisory | static/js/script.js:112-116 | After choosing a file at most one advisory exists |
| ClientFacts.StaleAdvisory | static/js/script.js:102-117 | A long file then a short file: the short file is staged under the long file's advisory |
| ClientFacts.RefusalKeepsFilePanel | static/js/script.js:80-99 | Any refused file after any staged one: the error panel and the file panel are both shown and the staged file stays chosen |
| ClientFacts.MarkChunkIndicators | static/js/script.js:417-435 | Marking a chunk colours the indicators exactly as `MarkIndicator` does, and leaves an absent chunks panel absent |
| ClientFacts.ProcessingCreatesOnce | static/js/script.js:317-349 | `processing` creates one grey indicator per chunk when none exist and leaves existing ones alone |
| ClientFacts.PartialTextRecords | static/js/script.js:362-370 | `partial_text` sets partial[k] := text and colours indicator k green, nothing else among the indicators |
| ClientFacts.RetrySuccessRecords | static/js/script.js:377-385 | `retry_success` overwrites partial[k] and colours indicator k yellow |
| ClientFacts.ChunkErrorMarks | static/js/script.js:372-375 | `chunk_error` colours the indicator named by `currentChunk` red and keeps the partial texts |
| ClientFacts.OtherStatusMovesBarOnly | static/js/script.js:300-414 | An unknown status changes only the bar, and only for a present non-zero progress |
| ClientFacts.CompletedShowsResults | static/js/script.js:387-399 | `completed` puts the full text in the results panel, shows it and hides the progress panel |
| ClientFacts.ErrorShowsMessage | static/js/script.js:401-412 | `error` shows its message in the error panel and hides the progress panel |
| ClientFacts.StartStreamClosesPrevious | static/js/script.js:220-262 | Opening a stream closes the previous one: afterwards exactly the new stream is open, with a fresh id, its URL and a cancel button |
| ClientFacts.TerminalMessageCloses | static/js/script.js:264-282 | A `completed` or `error` message on the current stream leaves no stream open and no cancel button |
| ClientFacts.OtherMessageKeepsStream | static/js/script.js:264-282 | Any other message leaves the stream as it was |
| ClientFacts.StreamErrorCloses | static/js/script.js:284-296 | A stream error leaves no stream open and no cancel button |
| ClientFacts.CancelCloses | static/js/script.js:239-259 | Cancel leaves no stream open, marks the run aborted and swaps the cancel button for a back button; the progress panel, partial texts and chosen file stay |
| ClientFacts.ResetClears | static/js/script.js:478-502 | After reset: nothing chosen, no stream, all four panels hidden, bar at 0, and no advisory, details or cancel button |
| ClientFacts.ResetKeeps | static/js/script.js:478-502 | Reset keeps the partial texts, the back buttons, the last texts written and the cancellation flag |
| ClientFacts.ResetIdempotent | static/js/script.js:478-502 | Resetting twice equals resetting once |
| ClientFacts.FeedIgnored | static/js/script.js:272-274 | Messages of a stream the page no longer listens to change nothing |
| ClientFacts.FeedStopsAtTerminal | static/js/script.js:264-282 | Nothing after a `completed` or `error` message reaches the page |
| ClientPage.BuildIndicators | static/js/script.js:335-344 | The loop makes one grey indicator per chunk, as `InitialIndicators` |
| ClientPage.Page.constructor | static/js/script.js:24-28 | The page starts in the loaded state |
| ClientPage.Page.ShowError | static/js/script.js:472-475 | Sets the error text and shows the error panel |
| ClientPage.Page.AddLogMessage | static/js/script.js:438-469 | Appends the log line when the details area exists |
| ClientPage.Page.CloseStream | static/js/script.js:488-491 | Closes and forgets the current stream |
| ClientPage.Page.HandleFiles | static/js/script.js:76-118 | Reaches the state `Client.HandleFiles` describes |
| ClientPage.Page.TranscribeAudio | static/js/script.js:154-196 | Without a chosen file nothing happens; otherwise the session is reset and the progress panel shown with a fresh log |
| ClientPage.Page.StartStream | static/js/script.js:220-262 | Closes the old stream and opens a fresh one with a cancel button |
| ClientPage.Page.OnUploadReply | static/js/script.js:202-216 | Opens the stream on success; otherwise hides the progress panel and shows the reply's error, the default message, or the connection error |
| ClientPage.Page.UpdateChunkIndicator | static/js/script.js:417-435 | Colours the one indicator, when the panel exists |
| ClientPage.Page.CreateChunksPanel | static/js/script.js:321-348 | Creates the chunks panel once, inside an existing details area |
| ClientPage.Page.UpdateChunkCounter | static/js/script.js:356-359 | Rewrites the counter when the panel exists |
| ClientPage.Page.UpdateUI | static/js/script.js:300-414 | The reducer: the bar, then the status's branch |
| ClientPage.Page.ReportStage | static/js/script.js:308-360 | The stage, `processing` and `transcribing` branches |
| ClientPage.Page.ReportChunk | static/js/script.js:362-385 | The `partial_text`, `chunk_error` and `retry_success` branches |
| ClientPage.Page.ReportCompleted | static/js/script.js:387-399 | The `completed` branch |
| ClientPage.Page.ReportFailed | static/js/script.js:401-412 | The `error` branch |
| ClientPage.Page.OnMessage | static/js/script.js:264-282 | A message on the current stream runs the reducer, and a terminal one closes the stream and removes the cancel button |
| ClientPage.Page.OnStreamError | static/js/script.js:284-296 | Closes the stream, logs the loss and removes the cancel button |
| ClientPage.Page.Cancel | static/js/script.js:239-259 | Closes the stream, marks the run aborted and swaps in a back button |
| ClientPage.Page.ResetUpload | static/js/script.js:478-502 | Clears the chosen file, panels, bar, stream, advisory, details and cancel button |
| Interplay.NameChecksAgree | static/js/script.js:80 | The page's name pattern and the server's extension test accept exactly the same names |
| Interplay.NameMatchIsAllowed | app.py:21-22 | A name the page's pattern accepts passes the server's test |
| Interplay.AllowedIsNameMatch | static/js/script.js:80 | A name the server accepts matches the page's pattern |
| Interplay.ServerStoresWhatTheNameAdmits | app.py:173-179 | A file staged by its name is stored when the body fits |
| Interplay.ServerRefusesWhatOnlyTheTypeAdmits | static/js/script.js:77-80 | A file staged only for its MIME type is refused by the server |
| Interplay.ExtensionlessWavRefused | static/js/script.js:203-210 | A WAV recording named "nota" is staged, refused with "Tipo de archivo no permitido", and the page hides the progress panel and shows that error |
| Interplay.CapFileRefusedAsConnectionError | app.py:15 | A file of exactly the page's cap is staged but its request exceeds the server's cap; the 413 page is reported as a connection error |
| Interplay.ServerChunkErrorLeavesIndicators | app.py:112 | The server's `chunk_error` has no `currentChunk`, so the page's indicators do not change |
| Interplay.QuietChunks | app.py:104-112 | Recognised or unintelligible chunks send no terminal message |
| Interplay.OpeningQuiet | app.py:50-84 | The opening messages are not terminal |
| Interplay.FeedKeepsStream | static/js/script.js:272 | Non-terminal messages keep the page on the stream |
| Interplay.ApiErrorBlock | app.py:113-122 | An API error chunk sends `transcribing`, the API `error`, then `retry_success` or `retry_failed` |
| Interplay.ApiErrorPosition | app.py:113-122 | The first API error of a run is the stream's first terminal message, followed by `retry_success` when the retry worked |
| Interplay.SessionEndsAtError | static/js/script.js:264-282 | A page listening to a stream whose first terminal message is an `error` stops there, with the stream closed and that message shown |
| Interplay.ApiErrorEndsSession | app.py:114 | After the first API error the page stops listening, so the following `retry_success` is never shown and the error panel shows the API error |

## Behaviours of the code worth knowing

- **Staging a new file.** An earlier advisory is removed only when the new file
  gets one of its own (static/js/script.js:102-117), so a short file can be staged
  under a long file's advisory (`ClientFacts.StaleAdvisory`).
- **Panels.** A refused file shows the error panel next to the previous file's
  panel (`ClientFacts.RefusalKeepsFilePanel`).
- **Cancel.** Cancelling does not return the page to idle. It keeps the progress
  panel, the partial texts and the chosen file, and shows a back button
  (`ClientFacts.CancelCloses`).
- **Reset.** Reset does not clear `partialTranscriptions`, and it does not remove
  back buttons (`ClientFacts.ResetKeeps`).
- **`chunk_error` messages.** The server sends no `currentChunk` with them
  (app.py:112), so the page marks no indicator
  (`Interplay.ServerChunkErrorLeavesIndicators`).
- **API errors and retries.** The server reports a recogniser API error as
  `status: 'error'` (app.py:114). The page treats that status as terminal, so the
  retry that follows is never shown (`Interplay.ApiErrorEndsSession`).
- **Upload checks.** Two mismatches between the page's checks and the server's:
  - A file accepted by the page for its MIME type alone is refused by the server
    (`Interplay.ServerRefusesWhatOnlyTheTypeAdmits`).
  - A file of exactly 100 MiB passes the page's check but not the server's, which
    counts the whole request (`Interplay.CapFileRefusedAsConnectionError`).

## Left out

**Browser and rendering**
- DOM construction and styling are not modelled: element creation, inline styles,
  colours as CSS strings (an abstract `Colour` remains), the drag highlight and
  auto-scroll. They are presentation.
- `fetch`, the `EventSource` transport and `JSON.parse` are not modelled. The upload
  reply and each message arrive as values, and a reply that cannot be read is
  `Unreadable`.
- `setTimeout` delays are not modelled. The delayed panel changes after `completed`
  and `error` are applied at once.
- The clipboard and the Blob/URL download are not modelled; only the download name is.
- Drag-and-drop and the file input are the `Pick` action. Clearing `fileInput.value`
  is not modelled.
- The initial HTML is taken to hide all four panels, because the page markup is not
  part of this model.
- The log keeps no `toLocaleTimeString` timestamp, because it is non-deterministic.
  Log entries are (text, severity) pairs.
- The advisory's sentence and its HTML are not modelled; `ClientFiles.AdvisoryFor`
  gives its two numbers.
- The script's `'processing'` indicator colour and `'warning'` log severity are never
  used, so they are not modelled.
- The bit-rate lookup is by MIME string. Inherited object keys such as
  `"constructor"` are not modelled.

**Numbers and text**
- ClientFiles.EstimateMinutes: uses exact real arithmetic, not floating point.
- ClientFiles.UnitIndex: is the exact largest power of 1024. `Math.log` may round
  differently at exact powers of 1024.
- ClientFiles.Hundredths: uses exact rounding. The floating-point steps of `toFixed(2)`
  and `parseFloat` are not modelled; the quotient is a binary fraction.
- ClientFiles.AdvisoryFor: computes `Math.round(durationEstimate)` and
  `Math.ceil(durationEstimate * 0.8)` on exact reals, so a product that floating point
  rounds across an integer is not modelled.
- Stream.ChunkProgress: is floor(60·i/total) in exact arithmetic. Python computes
  `int(60 * (i / total))` in floating point.
- Strings.Lower: folds ASCII letters only. Unicode case folding is not modelled.

**Server**
- pydub decoding, export and `split_on_silence` are inputs: where decoding fails,
  the silence chunks, and the sound as one element per millisecond.
- `recognize_google` is an input function from a chunk's position and samples to
  its outcome, so a retry may answer differently from the first attempt. Its
  `language` argument and the recorder are not modelled.
- `secure_filename` is an uninterpreted parameter of `Upload.UploadFile`.
- Temporary files, `os.unlink`, `os.makedirs`, `time.sleep`, Flask routing and
  `Response` streaming are not modelled. They are filesystem, timing and framework
  plumbing.
- The exception message's `trace` field is not modelled.
- The stream route's check that the stored file exists (app.py:30-31) is not
  modelled, because it depends on the filesystem.
- Python's `str(e)` rendering of an exception is an input string `detail`.

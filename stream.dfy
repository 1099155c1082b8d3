/** The server's transcription stream: the sequence of progress messages the
    generator behind `/transcribe/<filename>` sends for one uploaded file.

    The audio library and the speech recogniser are not modelled; what they decide
    arrives as inputs: whether decoding fails and where (`AudioFailure`), the chunks
    that silence detection returns, the sound itself as one element per millisecond,
    and, per chunk, what the recogniser answers (`ChunkOutcome`). */
module Stream {
  import opened Wrappers
  import opened Strings
  import opened Events

  /** Length in milliseconds of the windows used when silence detection finds too few pauses. */
  const ChunkLengthMs: nat := 30000

  /** With fewer silence-separated chunks than this, the sound is cut by time instead. */
  const MinSilenceChunks: nat := 5

  /** Directory the upload endpoint stores files in. */
  const UploadFolder := "uploads"

  /** Where decoding raised an exception, if anywhere: while converting to WAV
      (only attempted for non-WAV files), while loading the WAV data, or while
      detecting silences. */
  datatype AudioFailure = NoFailure | ConvertFails(detail: string) | LoadFails(detail: string) | SplitFails(detail: string)

  /** What the recogniser does with one chunk: returns a text; reports that it
      understood nothing; reports a request error `detail`, after which the single
      retry either returns a text or fails with any exception; or raises some other
      exception that ends the whole stream. */
  datatype ChunkOutcome =
    | Text(text: string)
    | Unintelligible
    | ApiError(detail: string, retry: Option<string>)
    | Crash(detail: string)

  function Min(a: int, b: int): int {
    if a <= b then a else b
  }

  function CeilDiv(a: nat, b: nat): nat
    requires b > 0
  {
    (a + b - 1) / b
  }

  /** Every window index below the window count starts inside the sound. */
  lemma WindowStartInside(len: nat, k: nat)
    requires k < CeilDiv(len, ChunkLengthMs)
    ensures k * ChunkLengthMs < len
  {
  }

  /** The time-based split: `sound[i:i + 30000]` for `i` in `range(0, len(sound), 30000)`. */
  function TimeSplit(sound: seq<int>): (chunks: seq<seq<int>>)
    ensures |chunks| == CeilDiv(|sound|, ChunkLengthMs)
    ensures forall k :: 0 <= k < |chunks| ==> 0 < |chunks[k]| <= ChunkLengthMs
  {
    var n := CeilDiv(|sound|, ChunkLengthMs);
    seq(n, k requires 0 <= k < n =>
      WindowStartInside(|sound|, k);
      sound[k * ChunkLengthMs .. Min((k + 1) * ChunkLengthMs, |sound|)])
  }

  /** The concatenation of a list of chunks. */
  function Concat(chunks: seq<seq<int>>): seq<int> {
    if chunks == [] then [] else Concat(chunks[..|chunks| - 1]) + chunks[|chunks| - 1]
  }

  /** The first `k` windows cover the first `k * 30000` milliseconds exactly, so
      window `k` starts at `k * 30000`. */
  lemma {:induction false} TimeSplitPrefix(sound: seq<int>, k: nat)
    requires k <= |TimeSplit(sound)|
    ensures Concat(TimeSplit(sound)[..k]) == sound[..Min(k * ChunkLengthMs, |sound|)]
  {
    var chunks := TimeSplit(sound);
    if k > 0 {
      TimeSplitPrefix(sound, k - 1);
      assert chunks[..k][..k - 1] == chunks[..k - 1];
      WindowStartInside(|sound|, k - 1);
      var lo := (k - 1) * ChunkLengthMs;
      var hi := Min(k * ChunkLengthMs, |sound|);
      assert chunks[k - 1] == sound[lo..hi];
      assert sound[..lo] + sound[lo..hi] == sound[..hi];
    }
  }

  /** The windows put back together are the whole sound. */
  lemma TimeSplitCovers(sound: seq<int>)
    ensures Concat(TimeSplit(sound)) == sound
  {
    var chunks := TimeSplit(sound);
    TimeSplitPrefix(sound, |chunks|);
    assert chunks[..|chunks|] == chunks;
    assert Min(|chunks| * ChunkLengthMs, |sound|) == |sound|;
  }

  /** The chunks the generator transcribes. */
  function Chunks(sound: seq<int>, silenceChunks: seq<seq<int>>): seq<seq<int>> {
    if |silenceChunks| < MinSilenceChunks then TimeSplit(sound) else silenceChunks
  }

  /** The recogniser's answer for each chunk, in order. The answer may depend on
      the call as well as on the sound, so `recognize` also receives the chunk's
      position. */
  function Outcomes(chunks: seq<seq<int>>, recognize: (nat, seq<int>) -> ChunkOutcome): (outs: seq<ChunkOutcome>)
    ensures |outs| == |chunks|
  {
    seq(|chunks|, k requires 0 <= k < |chunks| => recognize(k, chunks[k]))
  }

  /** `30 + int(60 * (i / total))`: the progress reported while chunk index `i` is
      transcribed. */
  function ChunkProgress(i: nat, total: nat): (p: int)
    requires i < total
    ensures 30 <= p < 90
  {
    assert 60 * i < 60 * total;
    DivBelow(60 * i, total, 60);
    30 + (60 * i) / total
  }

  lemma DivBelow(a: nat, b: nat, q: nat)
    requires b > 0 && a < q * b
    ensures a / b < q
  {
  }

  lemma DivMonotone(a: nat, c: nat, b: nat)
    requires b > 0 && a <= c
    ensures a / b <= c / b
  {
    var qa, qc := a / b, c / b;
    assert a == b * qa + a % b && c == b * qc + c % b;
    if qa > qc {
      MulAtLeast(b, qa - qc);
    }
  }

  lemma MulAtLeast(b: nat, d: nat)
    requires d >= 1
    ensures b * d >= b
  {
  }

  /** The reported progress never goes back as the chunk index grows. */
  lemma ChunkProgressMonotone(i: nat, j: nat, total: nat)
    requires i <= j < total
    ensures ChunkProgress(i, total) <= ChunkProgress(j, total)
  {
    DivMonotone(60 * i, 60 * j, total);
  }

  function TextEvent(status: string, text: string, chunk: nat, progress: int): Payload {
    Payload(status, None, Some(progress), None, None, Some(chunk), Some(text), None)
  }

  function TranscribingEvent(chunk: nat, total: nat, progress: int): Payload {
    Payload("transcribing", Some("Transcribiendo fragmento " + NatToString(chunk) + "/" + NatToString(total)),
            Some(progress), Some(total), Some(chunk), None, None, None)
  }

  function ApiErrorEvent(chunk: nat, detail: string, progress: int): Payload {
    Notice("error", "Error de API en fragmento " + NatToString(chunk) + ": " + detail, progress)
  }

  function ChunkErrorEvent(chunk: nat, progress: int): Payload {
    Notice("chunk_error", "No se pudo entender el fragmento " + NatToString(chunk), progress)
  }

  function RetryFailedEvent(chunk: nat, progress: int): Payload {
    Notice("retry_failed", "Reintento fallido para fragmento " + NatToString(chunk), progress)
  }

  /** The message sent when an exception escapes (its traceback field is not modelled). */
  function ExceptionEvent(detail: string): Payload {
    Notice("error", "Error: " + detail, 100)
  }

  const NothingTranscribedMessage := "No se pudo transcribir ninguna parte del audio"

  /** The last message of a run that raised nothing. */
  function FinishEvent(wholeText: string): Payload {
    if Strip(wholeText) != "" then Payload("completed", None, Some(100), None, None, None, None, Some(Strip(wholeText)))
    else Notice("error", NothingTranscribedMessage, 100)
  }

  /** The messages for chunk index `i`: its `transcribing` message, then what the
      recogniser's answer produced. */
  function ChunkEvents(i: nat, total: nat, o: ChunkOutcome): (block: seq<Payload>)
    requires i < total
    ensures 1 <= |block| <= 3
    ensures block[0] == TranscribingEvent(i + 1, total, ChunkProgress(i, total))
    ensures |block| == 1 <==> o.Crash?
    ensures |block| == 3 <==> o.ApiError?
  {
    var chunk := i + 1;
    var progress := ChunkProgress(i, total);
    [TranscribingEvent(chunk, total, progress)] +
    match o
    case Text(t) => [TextEvent("partial_text", t, chunk, progress)]
    case Unintelligible => [ChunkErrorEvent(chunk, progress)]
    case ApiError(d, retry) =>
      [ApiErrorEvent(chunk, d, progress)] +
      (match retry
       case Some(t) => [TextEvent("retry_success", t, chunk, progress)]
       case None => [RetryFailedEvent(chunk, progress)])
    case Crash(_) => []
  }

  /** What one chunk adds to the accumulated transcript. */
  function ChunkText(o: ChunkOutcome): (text: string)
    ensures text == "" || text[|text| - 1] == ' '
    ensures o.Crash? || o.Unintelligible? || (o.ApiError? && o.retry.None?) ==> text == ""
  {
    match o
    case Text(t) => t + " "
    case ApiError(_, Some(t)) => t + " "
    case _ => ""
  }

  /** The generator's loop state: the messages sent, the accumulated text and the
      exception that stopped the loop, if one did. */
  datatype LoopState = LoopState(events: seq<Payload>, wholeText: string, crash: Option<string>)

  /** The loop over the first `|outs|` of `total` chunks. */
  function Transcribe(outs: seq<ChunkOutcome>, total: nat): (run: LoopState)
    requires |outs| <= total
    decreases |outs|
  {
    if outs == [] then LoopState([], "", None)
    else
      var prev := Transcribe(outs[..|outs| - 1], total);
      if prev.crash.Some? then prev
      else
        var i := |outs| - 1;
        LoopState(prev.events + ChunkEvents(i, total, outs[i]), prev.wholeText + ChunkText(outs[i]),
                  if outs[i].Crash? then Some(outs[i].detail) else None)
  }

  const Converting := Notice("converting", "Convirtiendo archivo de audio...", 5)
  const Converted := Notice("converted", "Conversión completada", 10)
  const Loading := Notice("loading", "Cargando archivo de audio...", 15)
  const Splitting := Notice("splitting", "Dividiendo audio en fragmentos...", 20)
  const SplittingTime := Notice("splitting_time", "No se detectaron suficientes silencios, dividiendo por tiempo...", 25)

  function ProcessingEvent(total: nat): Payload {
    Payload("processing", Some("Audio dividido en " + NatToString(total) + " fragmentos"), Some(30),
            Some(total), None, None, None, None)
  }

  /** The whole stream, given whether the file is WAV, where decoding fails, whether
      silence detection found too few chunks, and the recogniser's answer per chunk:
      the decoding steps up to an exception, or the opening messages, the chunk loop
      and one closing message. */
  function Schedule(wav: bool, failure: AudioFailure, few: bool, outs: seq<ChunkOutcome>): (events: seq<Payload>)
    ensures |events| >= 2 && events[0] == (if wav then Loading else Converting)
    ensures Terminal(events[|events| - 1]) && events[|events| - 1].progress == Some(100)
  {
    if OpeningFails(wav, failure) then FailedOpening(wav, failure)
    else
      var run := Transcribe(outs, |outs|);
      Opening(wav, few, |outs|) + run.events + [Closing(run)]
  }

  /** A decoding step raised (conversion is attempted only for a non-WAV file). */
  predicate OpeningFails(wav: bool, failure: AudioFailure) {
    (!wav && failure.ConvertFails?) || failure.LoadFails? || failure.SplitFails?
  }

  /** The decoding steps reached before the exception, then the exception message. */
  function FailedOpening(wav: bool, failure: AudioFailure): seq<Payload>
    requires OpeningFails(wav, failure)
  {
    var conversion := if wav then [] else [Converting];
    if !wav && failure.ConvertFails? then conversion + [ExceptionEvent(failure.detail)]
    else
      var loading := conversion + (if wav then [] else [Converted]) + [Loading];
      if failure.LoadFails? then loading + [ExceptionEvent(failure.detail)]
      else loading + [Splitting] + [ExceptionEvent(failure.detail)]
  }

  /** The messages sent before the first chunk when decoding succeeds. */
  function Opening(wav: bool, few: bool, total: nat): seq<Payload> {
    Decoded(wav) + (if few then [SplittingTime] else []) + [ProcessingEvent(total)]
  }

  /** The messages of the decoding steps when none of them raises. */
  function Decoded(wav: bool): seq<Payload> {
    (if wav then [] else [Converting]) + (if wav then [] else [Converted]) + [Loading] + [Splitting]
  }

  /** The message that ends a stream whose loop reached the state `run`. */
  function Closing(run: LoopState): Payload {
    if run.crash.Some? then ExceptionEvent(run.crash.value) else FinishEvent(run.wholeText)
  }

  /** A stream whose decoding succeeds is the opening, the loop's messages and one
      closing message. */
  lemma ScheduleShape(wav: bool, failure: AudioFailure, few: bool, outs: seq<ChunkOutcome>)
    requires !OpeningFails(wav, failure)
    ensures Schedule(wav, failure, few, outs) ==
            Opening(wav, few, |outs|) + Transcribe(outs, |outs|).events + [Closing(Transcribe(outs, |outs|))]
  {
  }

  /** The server path of an uploaded file. */
  function UploadPath(filename: string): string {
    UploadFolder + "/" + filename
  }

  /** The generator's WAV test: the last '.'-piece of the stored path, lower-cased, is "wav". */
  predicate IsWavPath(filename: string) {
    WavExtension(LastPiece(UploadPath(filename), '.'))
  }

  /** `ext`, lower-cased, is "wav". */
  predicate WavExtension(ext: string) {
    Lower(ext) == "wav"
  }

  /** The folder has no '.', so the test reads the file name's own extension; a name
      without '.' is read whole, folder included, and is never "wav". */
  lemma IsWavPathIff(filename: string)
    ensures IsWavPath(filename) <==> '.' in filename && WavExtension(LastPiece(filename, '.'))
  {
    PathLastPiece(filename);
    if '.' !in filename {
      assert |Lower(UploadPath(filename))| >= 8;
    }
  }

  lemma PathLastPiece(filename: string)
    ensures '.' in filename ==> LastPiece(UploadPath(filename), '.') == LastPiece(filename, '.')
    ensures '.' !in filename ==> LastPiece(UploadPath(filename), '.') == UploadPath(filename)
  {
    var path := UploadPath(filename);
    var pre := UploadFolder + "/";
    assert path == pre + filename;
    assert '.' !in pre;
    if '.' in filename {
      var j := LastIndexOf(filename, '.').value;
      assert path[|pre| + j + 1..] == filename[j + 1..];
      LastIndexOfUnique(path, '.', |pre| + j);
    } else {
      assert '.' !in path;
    }
  }

  /** The loop sends at most three messages per chunk, and at least two per chunk
      when no exception escaped. */
  lemma {:induction false} TranscribeBounds(outs: seq<ChunkOutcome>, total: nat)
    requires |outs| <= total
    ensures |Transcribe(outs, total).events| <= 3 * |outs|
    ensures Transcribe(outs, total).crash.None? ==> 2 * |outs| <= |Transcribe(outs, total).events|
    decreases |outs|
  {
    if outs != [] {
      TranscribeBounds(outs[..|outs| - 1], total);
    }
  }

  /** One more chunk, when the loop has not stopped yet. */
  lemma TranscribeStep(outs: seq<ChunkOutcome>, i: nat, total: nat)
    requires i < |outs| <= total
    requires Transcribe(outs[..i], total).crash.None?
    ensures var prev := Transcribe(outs[..i], total);
            Transcribe(outs[..i + 1], total) ==
            LoopState(prev.events + ChunkEvents(i, total, outs[i]), prev.wholeText + ChunkText(outs[i]),
                      if outs[i].Crash? then Some(outs[i].detail) else None)
  {
    assert outs[..i + 1][..i] == outs[..i];
  }

  /** Once the loop has stopped on an exception, the later chunks change nothing. */
  lemma {:induction false} TranscribeStopped(outs: seq<ChunkOutcome>, i: nat, total: nat)
    requires i <= |outs| <= total
    requires Transcribe(outs[..i], total).crash.Some?
    ensures Transcribe(outs, total) == Transcribe(outs[..i], total)
  {
    if i < |outs| {
      assert outs[..|outs| - 1][..i] == outs[..i];
      TranscribeStopped(outs[..|outs| - 1], i, total);
    } else {
      assert outs[..i] == outs;
    }
  }

  /** The generator, step by step: the opening messages, the choice of chunks, the
      chunk loop and the closing message. */
  method Generate(filename: string, failure: AudioFailure, sound: seq<int>, silenceChunks: seq<seq<int>>,
                  recognize: (nat, seq<int>) -> ChunkOutcome)
    returns (events: seq<Payload>)
    ensures events == Schedule(IsWavPath(filename), failure, |silenceChunks| < MinSilenceChunks,
                               Outcomes(Chunks(sound, silenceChunks), recognize))
  {
    var fileExt := Lower(LastPiece(UploadPath(filename), '.'));
    events := GenerateFrom(fileExt == "wav", failure, sound, silenceChunks, recognize);
  }

  /** The generator once the stored file's extension has been read. */
  method GenerateFrom(wav: bool, failure: AudioFailure, sound: seq<int>, silenceChunks: seq<seq<int>>,
                      recognize: (nat, seq<int>) -> ChunkOutcome)
    returns (events: seq<Payload>)
    ensures events == Schedule(wav, failure, |silenceChunks| < MinSilenceChunks,
                               Outcomes(Chunks(sound, silenceChunks), recognize))
  {
    events := [];
    if !wav {
      events := events + [Converting];
      if failure.ConvertFails? {
        events := events + [ExceptionEvent(failure.detail)];
        assert events == FailedOpening(wav, failure);
        return;
      }
      events := events + [Converted];
    }
    events := events + [Loading];
    if failure.LoadFails? {
      events := events + [ExceptionEvent(failure.detail)];
      assert events == FailedOpening(wav, failure);
      return;
    }
    events := events + [Splitting];
    if failure.SplitFails? {
      events := events + [ExceptionEvent(failure.detail)];
      assert events == FailedOpening(wav, failure);
      return;
    }
    assert !OpeningFails(wav, failure);
    ghost var few, outs := |silenceChunks| < MinSilenceChunks, Outcomes(Chunks(sound, silenceChunks), recognize);
    ghost var run := Transcribe(outs, |outs|);
    assert events == Decoded(wav);
    var rest := SplitAndTranscribe(sound, silenceChunks, recognize);
    Regroup(events, if few then [SplittingTime] else [], [ProcessingEvent(|outs|)], run.events, [Closing(run)]);
    events := events + rest;
    ScheduleShape(wav, failure, few, outs);
  }

  /** Five pieces regrouped: the decoding messages, then the rest of the stream. */
  lemma Regroup<T>(d: seq<T>, x: seq<T>, p: seq<T>, r: seq<T>, c: seq<T>)
    ensures d + (x + p + r + c) == (d + x + p) + r + c
  {
    AppendAssoc(d, (x + p) + r, c);
    AppendAssoc(d, x + p, r);
    AppendAssoc(d, x, p);
  }

  lemma AppendAssoc<T>(a: seq<T>, b: seq<T>, c: seq<T>)
    ensures a + (b + c) == (a + b) + c
  {
  }

  /** The generator after splitting on silence succeeded: the fallback to fixed
      chunks, the chunk count, the loop and the closing message. */
  method SplitAndTranscribe(sound: seq<int>, silenceChunks: seq<seq<int>>, recognize: (nat, seq<int>) -> ChunkOutcome)
    returns (events: seq<Payload>)
    ensures var outs := Outcomes(Chunks(sound, silenceChunks), recognize);
            var run := Transcribe(outs, |outs|);
            events == (if |silenceChunks| < MinSilenceChunks then [SplittingTime] else []) + [ProcessingEvent(|outs|)] +
                      run.events + [Closing(run)]
  {
    events := [];
    var chunks := silenceChunks;
    if |chunks| < MinSilenceChunks {
      events := events + [SplittingTime];
      chunks := TimeSplit(sound);
    }
    assert chunks == Chunks(sound, silenceChunks);
    assert events == if |silenceChunks| < MinSilenceChunks then [SplittingTime] else [];
    ghost var outs := Outcomes(chunks, recognize);
    events := events + [ProcessingEvent(|chunks|)];
    var sent, wholeText, crash := TranscribeChunks(chunks, recognize);
    ghost var run := Transcribe(outs, |outs|);
    assert sent == run.events && wholeText == run.wholeText && crash == run.crash;
    events := events + sent;
    var last := if crash.Some? then ExceptionEvent(crash.value) else FinishEvent(wholeText);
    assert last == Closing(run);
    events := events + [last];
  }

  /** The body of the loop for chunk `i + 1`: its messages, the text it adds and
      the exception that ends the loop, if the recognizer raised one. */
  method TranscribeChunk(i: nat, totalChunks: nat, outcome: ChunkOutcome)
    returns (block: seq<Payload>, text: string, crash: Option<string>)
    requires i < totalChunks
    ensures block == ChunkEvents(i, totalChunks, outcome)
    ensures text == ChunkText(outcome)
    ensures crash == if outcome.Crash? then Some(outcome.detail) else None
  {
    var currentChunk := i + 1;
    var progress := ChunkProgress(i, totalChunks);
    block, text, crash := [TranscribingEvent(currentChunk, totalChunks, progress)], "", None;
    match outcome {
      case Text(t) =>
        text := text + t + " ";
        block := block + [TextEvent("partial_text", t, currentChunk, progress)];
      case Unintelligible =>
        block := block + [ChunkErrorEvent(currentChunk, progress)];
      case ApiError(detail, retry) =>
        block := block + [ApiErrorEvent(currentChunk, detail, progress)];
        match retry {
          case Some(t) =>
            text := text + t + " ";
            block := block + [TextEvent("retry_success", t, currentChunk, progress)];
          case None =>
            block := block + [RetryFailedEvent(currentChunk, progress)];
        }
      case Crash(detail) =>
        crash := Some(detail);
    }
  }

  /** The generator's loop over the chunks: per chunk, the `transcribing` message and
      the messages for the recogniser's answer, with the recognised text appended to
      `wholeText`; an exception other than the two the loop catches stops it. */
  method TranscribeChunks(chunks: seq<seq<int>>, recognize: (nat, seq<int>) -> ChunkOutcome)
    returns (events: seq<Payload>, wholeText: string, crash: Option<string>)
    ensures LoopState(events, wholeText, crash) == Transcribe(Outcomes(chunks, recognize), |chunks|)
  {
    ghost var outs := Outcomes(chunks, recognize);
    var totalChunks := |chunks|;
    events, wholeText, crash := [], "", None;
    var i := 0;
    while i < totalChunks && crash.None?
      invariant 0 <= i <= totalChunks
      invariant Transcribe(outs[..i], totalChunks) == LoopState(events, wholeText, crash)
    {
      var outcome := recognize(i, chunks[i]);
      assert outcome == outs[i];
      var block, text;
      block, text, crash := TranscribeChunk(i, totalChunks, outcome);
      events, wholeText := events + block, wholeText + text;
      TranscribeStep(outs, i, totalChunks);
      i := i + 1;
    }
    if crash.Some? {
      TranscribeStopped(outs, i, totalChunks);
    } else {
      assert outs[..i] == outs;
    }
  }
}

/** What the transcription stream promises, stated over `Stream.Schedule`. */
module StreamFacts {
  import opened Wrappers
  import opened Strings
  import opened Events
  import opened Stream

  /** The concatenation of `f(e)` over the messages, in order. */
  function Collect<T>(events: seq<Payload>, f: Payload -> seq<T>): seq<T>
    decreases |events|
  {
    if events == [] then [] else Collect(events[..|events| - 1], f) + f(events[|events| - 1])
  }

  lemma CollectOne<T>(e: Payload, f: Payload -> seq<T>)
    ensures Collect([e], f) == f(e)
  {
    assert [e][..0] == [];
  }

  lemma {:induction false} CollectAppend<T>(a: seq<Payload>, b: seq<Payload>, f: Payload -> seq<T>)
    ensures Collect(a + b, f) == Collect(a, f) + Collect(b, f)
    decreases |b|
  {
    if b == [] {
      assert a + b == a;
    } else {
      CollectAppend(a, b[..|b| - 1], f);
      assert (a + b)[..|a + b| - 1] == a + b[..|b| - 1];
    }
  }

  /** The chunk number of a `transcribing` message. */
  function TranscribedChunk(e: Payload): seq<Option<int>> {
    if e.status == "transcribing" then [e.currentChunk] else []
  }

  /** The text a `partial_text` or `retry_success` message carries, followed by one space. */
  function SpokenPiece(e: Payload): string {
    if e.status == "partial_text" || e.status == "retry_success" then e.partialText.GetOr("") + " " else ""
  }

  /** What the recogniser returned for a chunk on the first attempt or on the retry. */
  function Recognition(o: ChunkOutcome): Option<string> {
    match o
    case Text(t) => Some(t)
    case ApiError(_, Some(t)) => Some(t)
    case _ => None
  }

  /** The recognised texts, in chunk order. */
  function Recognized(outs: seq<ChunkOutcome>): seq<string>
    decreases |outs|
  {
    if outs == [] then []
    else
      var o := outs[|outs| - 1];
      Recognized(outs[..|outs| - 1]) + (if Recognition(o).Some? then [Recognition(o).value] else [])
  }

  /** Each text followed by one space, concatenated. */
  function Spaced(texts: seq<string>): string
    decreases |texts|
  {
    if texts == [] then "" else Spaced(texts[..|texts| - 1]) + texts[|texts| - 1] + " "
  }

  /** One chunk's messages hold one `transcribing` message, for chunk `i + 1`, and
      carry the chunk's recognised text. */
  lemma ChunkEventsCollected(i: nat, total: nat, o: ChunkOutcome)
    requires i < total
    ensures Collect(ChunkEvents(i, total, o), TranscribedChunk) == [Some(i + 1)]
    ensures Collect(ChunkEvents(i, total, o), SpokenPiece) == ChunkText(o)
  {
    ChunkEventsCollectedBy(i, total, o, TranscribedChunk);
    ChunkEventsCollectedBy(i, total, o, SpokenPiece);
  }

  /** What `f` collects from one chunk's messages, message by message. */
  lemma ChunkEventsCollectedBy<T>(i: nat, total: nat, o: ChunkOutcome, f: Payload -> seq<T>)
    requires i < total
    ensures var chunk, progress := i + 1, ChunkProgress(i, total);
            Collect(ChunkEvents(i, total, o), f) ==
            f(TranscribingEvent(chunk, total, progress)) +
            match o
            case Text(t) => f(TextEvent("partial_text", t, chunk, progress))
            case Unintelligible => f(ChunkErrorEvent(chunk, progress))
            case ApiError(d, retry) =>
              f(ApiErrorEvent(chunk, d, progress)) +
              (match retry
               case Some(t) => f(TextEvent("retry_success", t, chunk, progress))
               case None => f(RetryFailedEvent(chunk, progress)))
            case Crash(_) => []
  {
    var chunk, progress := i + 1, ChunkProgress(i, total);
    var head := TranscribingEvent(chunk, total, progress);
    match o {
      case Text(t) =>
        var e := TextEvent("partial_text", t, chunk, progress);
        assert ChunkEvents(i, total, o) == [head, e];
        CollectPair(head, e, f);
      case Unintelligible =>
        var e := ChunkErrorEvent(chunk, progress);
        assert ChunkEvents(i, total, o) == [head, e];
        CollectPair(head, e, f);
      case ApiError(d, retry) =>
        var e := ApiErrorEvent(chunk, d, progress);
        var last := if retry.Some? then TextEvent("retry_success", retry.value, chunk, progress)
                    else RetryFailedEvent(chunk, progress);
        assert ChunkEvents(i, total, o) == [head, e, last];
        CollectTriple(head, e, last, f);
      case Crash(_) =>
        assert ChunkEvents(i, total, o) == [head];
        CollectOne(head, f);
        assert f(head) + [] == f(head);
    }
  }

  lemma CollectPair<T>(a: Payload, b: Payload, f: Payload -> seq<T>)
    ensures Collect([a, b], f) == f(a) + f(b)
  {
    assert [a, b][..1] == [a];
    CollectOne(a, f);
  }

  lemma CollectTriple<T>(a: Payload, b: Payload, c: Payload, f: Payload -> seq<T>)
    ensures Collect([a, b, c], f) == f(a) + f(b) + f(c)
  {
    assert [a, b, c][..2] == [a, b];
    CollectPair(a, b, f);
  }

  /** The chunk numbers 1, 2, 3, ... in order. */
  predicate CountsUp(chunks: seq<Option<int>>) {
    forall k :: 0 <= k < |chunks| ==> chunks[k] == Some(k + 1)
  }

  lemma CountsUpNext(chunks: seq<Option<int>>)
    requires CountsUp(chunks)
    ensures CountsUp(chunks + [Some(|chunks| + 1)])
  {
    var c := chunks + [Some(|chunks| + 1)];
    forall k | 0 <= k < |c| ensures c[k] == Some(k + 1) {
      if k < |chunks| {
        assert c[k] == chunks[k];
      }
    }
  }

  /** The `transcribing` messages number the chunks 1, 2, 3, ... in order, one per
      chunk, up to the chunk whose exception stopped the loop. */
  lemma {:induction false} TranscribingInOrder(outs: seq<ChunkOutcome>, total: nat)
    requires |outs| <= total
    ensures var chunks := Collect(Transcribe(outs, total).events, TranscribedChunk);
            |chunks| <= |outs| && CountsUp(chunks) &&
            (Transcribe(outs, total).crash.None? ==> |chunks| == |outs|)
    decreases |outs|
  {
    if outs != [] {
      var i := |outs| - 1;
      var prev := Transcribe(outs[..i], total);
      TranscribingInOrder(outs[..i], total);
      if prev.crash.None? {
        var before := Collect(prev.events, TranscribedChunk);
        CollectAppend(prev.events, ChunkEvents(i, total, outs[i]), TranscribedChunk);
        ChunkEventsCollected(i, total, outs[i]);
        assert Collect(Transcribe(outs, total).events, TranscribedChunk) == before + [Some(i + 1)];
        CountsUpNext(before);
      } else {
        assert Transcribe(outs, total) == prev;
      }
    }
  }

  /** The messages of every chunk in `outs`, chunk after chunk. */
  function Blocks(outs: seq<ChunkOutcome>, total: nat): seq<Payload>
    requires |outs| <= total
    decreases |outs|
  {
    if outs == [] then [] else Blocks(outs[..|outs| - 1], total) + ChunkEvents(|outs| - 1, total, outs[|outs| - 1])
  }

  /** The loop's messages are the chunks' blocks in order: all of them when no chunk
      raised, and otherwise those up to and including the first chunk that raised,
      whose exception is the one that stopped the loop. */
  lemma {:induction false} TranscribeIsBlocks(outs: seq<ChunkOutcome>, total: nat)
    requires |outs| <= total
    ensures var run := Transcribe(outs, total);
            run.crash.None? ==> run.events == Blocks(outs, total) && forall k :: 0 <= k < |outs| ==> !outs[k].Crash?
    ensures var run := Transcribe(outs, total);
            run.crash.Some? ==>
              exists j :: 0 <= j < |outs| && FirstCrash(outs, j) && run.crash == Some(outs[j].detail) &&
                          run.events == Blocks(outs[..j + 1], total)
    decreases |outs|
  {
    if outs != [] {
      var front := outs[..|outs| - 1];
      TranscribeIsBlocks(front, total);
      if Transcribe(front, total).crash.None? {
        BlocksStepRunning(outs, total);
      } else {
        BlocksStepStopped(outs, total);
      }
    }
  }

  /** The induction step of `TranscribeIsBlocks` while the loop is still running. */
  lemma BlocksStepRunning(outs: seq<ChunkOutcome>, total: nat)
    requires 0 < |outs| <= total
    requires var front := outs[..|outs| - 1];
             var prev := Transcribe(front, total);
             prev.crash.None? && prev.events == Blocks(front, total) &&
             forall k :: 0 <= k < |front| ==> !front[k].Crash?
    ensures var run := Transcribe(outs, total);
            run.crash.None? ==> run.events == Blocks(outs, total) && forall k :: 0 <= k < |outs| ==> !outs[k].Crash?
    ensures var run := Transcribe(outs, total);
            run.crash.Some? ==> FirstCrash(outs, |outs| - 1) && run.crash == Some(outs[|outs| - 1].detail) &&
                                run.events == Blocks(outs[..|outs|], total)
  {
    var i := |outs| - 1;
    assert forall k :: 0 <= k < i ==> outs[k] == outs[..i][k];
    assert outs[..|outs|] == outs;
  }

  /** The induction step of `TranscribeIsBlocks` once the loop has stopped. */
  lemma BlocksStepStopped(outs: seq<ChunkOutcome>, total: nat)
    requires 0 < |outs| <= total
    requires var front := outs[..|outs| - 1];
             var prev := Transcribe(front, total);
             prev.crash.Some? &&
             exists j :: 0 <= j < |front| && FirstCrash(front, j) && prev.crash == Some(front[j].detail) &&
                         prev.events == Blocks(front[..j + 1], total)
    ensures var run := Transcribe(outs, total);
            run.crash.Some? &&
            exists j :: 0 <= j < |outs| && FirstCrash(outs, j) && run.crash == Some(outs[j].detail) &&
                        run.events == Blocks(outs[..j + 1], total)
  {
    var front := outs[..|outs| - 1];
    var prev := Transcribe(front, total);
    assert Transcribe(outs, total) == prev;
    var j :| 0 <= j < |front| && FirstCrash(front, j) && prev.crash == Some(front[j].detail) &&
             prev.events == Blocks(front[..j + 1], total);
    assert front[..j + 1] == outs[..j + 1];
    assert forall k :: 0 <= k <= j ==> outs[k] == front[k];
    assert FirstCrash(outs, j);
  }

  /** Chunk `j` raised and no chunk before it did. */
  predicate FirstCrash(outs: seq<ChunkOutcome>, j: nat)
    requires j < |outs|
  {
    outs[j].Crash? && forall k :: 0 <= k < j ==> !outs[k].Crash?
  }

  /** The accumulated text is exactly the texts the stream has shown, each followed
      by one space. */
  lemma {:induction false} WholeTextIsShownText(outs: seq<ChunkOutcome>, total: nat)
    requires |outs| <= total
    ensures Transcribe(outs, total).wholeText == Collect(Transcribe(outs, total).events, SpokenPiece)
    decreases |outs|
  {
    if outs != [] {
      var i := |outs| - 1;
      var prev := Transcribe(outs[..i], total);
      WholeTextIsShownText(outs[..i], total);
      if prev.crash.None? {
        CollectAppend(prev.events, ChunkEvents(i, total, outs[i]), SpokenPiece);
        ChunkEventsCollected(i, total, outs[i]);
      }
    }
  }

  /** Without an exception in the loop, the accumulated text is every recognised
      text, first attempt or retry, in chunk order, each followed by one space. */
  lemma {:induction false} WholeTextIsRecognized(outs: seq<ChunkOutcome>, total: nat)
    requires |outs| <= total
    requires forall k :: 0 <= k < |outs| ==> !outs[k].Crash?
    ensures Transcribe(outs, total).crash.None?
    ensures Transcribe(outs, total).wholeText == Spaced(Recognized(outs))
    decreases |outs|
  {
    if outs != [] {
      var i := |outs| - 1;
      WholeTextIsRecognized(outs[..i], total);
      var o := outs[i];
      var rest := Recognized(outs[..i]);
      if Recognition(o).Some? {
        assert (rest + [Recognition(o).value])[..|rest|] == rest;
      } else {
        assert rest + [] == rest;
      }
    }
  }

  /** Some chunk was recognised with a text that is not all whitespace. */
  predicate SomethingSaid(outs: seq<ChunkOutcome>) {
    exists j :: 0 <= j < |outs| && Recognition(outs[j]).Some? && !Blank(Recognition(outs[j]).value)
  }

  lemma BlankConcat(a: string, b: string)
    ensures Blank(a + b) <==> Blank(a) && Blank(b)
  {
    if Blank(a + b) {
      assert forall i :: 0 <= i < |a| ==> (a + b)[i] == a[i];
      assert forall i :: 0 <= i < |b| ==> (a + b)[|a| + i] == b[i];
    }
  }

  /** The recognised texts, spaced, are all whitespace exactly when no chunk was
      recognised with a non-blank text. */
  lemma {:induction false} SpacedRecognizedBlank(outs: seq<ChunkOutcome>)
    ensures Blank(Spaced(Recognized(outs))) <==> !SomethingSaid(outs)
    decreases |outs|
  {
    if outs != [] {
      var i := |outs| - 1;
      SpacedRecognizedBlank(outs[..i]);
      SpacedRecognizedStep(outs);
      SomethingSaidStep(outs);
    }
  }

  /** The spaced texts grow by the last chunk's text and a space, if it has one. */
  lemma SpacedRecognizedStep(outs: seq<ChunkOutcome>)
    requires outs != []
    ensures var o := outs[|outs| - 1];
            var before := Spaced(Recognized(outs[..|outs| - 1]));
            Blank(Spaced(Recognized(outs))) <==>
            Blank(before) && (Recognition(o).Some? ==> Blank(Recognition(o).value))
  {
    var o := outs[|outs| - 1];
    var rest := Recognized(outs[..|outs| - 1]);
    if Recognition(o).Some? {
      var t := Recognition(o).value;
      assert (rest + [t])[..|rest|] == rest;
      BlankConcat(Spaced(rest), t);
      BlankConcat(Spaced(rest) + t, " ");
    } else {
      assert rest + [] == rest;
    }
  }

  /** Something was said in `outs` exactly when it was said before the last chunk
      or in it. */
  lemma SomethingSaidStep(outs: seq<ChunkOutcome>)
    requires outs != []
    ensures var o := outs[|outs| - 1];
            SomethingSaid(outs) <==>
            SomethingSaid(outs[..|outs| - 1]) || (Recognition(o).Some? && !Blank(Recognition(o).value))
  {
    var i := |outs| - 1;
    var front := outs[..i];
    if SomethingSaid(outs) {
      var j :| 0 <= j < |outs| && Recognition(outs[j]).Some? && !Blank(Recognition(outs[j]).value);
      if j < i {
        assert front[j] == outs[j];
      }
    }
    if SomethingSaid(front) {
      var j :| 0 <= j < |front| && Recognition(front[j]).Some? && !Blank(Recognition(front[j]).value);
      assert outs[j] == front[j];
    }
  }

  /** When decoding raised, the stream ends with the single exception message and no
      chunk is transcribed. */
  lemma ScheduleOpeningFailure(wav: bool, failure: AudioFailure, few: bool, outs: seq<ChunkOutcome>)
    requires OpeningFails(wav, failure)
    ensures var events := Schedule(wav, failure, few, outs);
            events[|events| - 1] == ExceptionEvent(failure.detail) &&
            forall k :: 0 <= k < |events| - 1 ==> events[k].status != "error" && events[k].status != "transcribing"
  {
  }

  /** A stream without exceptions ends with `completed` and the stripped text exactly
      when some chunk was recognised with a non-blank text; otherwise with the error
      saying nothing could be transcribed. */
  lemma ScheduleFinish(wav: bool, failure: AudioFailure, few: bool, outs: seq<ChunkOutcome>)
    requires !OpeningFails(wav, failure)
    requires forall k :: 0 <= k < |outs| ==> !outs[k].Crash?
    ensures var events := Schedule(wav, failure, few, outs);
            var last := events[|events| - 1];
            (last.status == "completed" <==> SomethingSaid(outs)) &&
            (SomethingSaid(outs) ==> last.fullText == Some(Strip(Spaced(Recognized(outs))))) &&
            (!SomethingSaid(outs) ==> last == Notice("error", NothingTranscribedMessage, 100))
  {
    ScheduleShape(wav, failure, few, outs);
    WholeTextIsRecognized(outs, |outs|);
    var run := Transcribe(outs, |outs|);
    var texts := Recognized(outs);
    assert Closing(run) == FinishEvent(Spaced(texts));
    StripEmptyIffBlank(Spaced(texts));
    SpacedRecognizedBlank(outs);
  }

  /** The loop runs without stopping through chunks that raise nothing. */
  lemma {:induction false} TranscribeNoCrash(outs: seq<ChunkOutcome>, total: nat)
    requires |outs| <= total
    requires forall k :: 0 <= k < |outs| ==> !outs[k].Crash?
    ensures Transcribe(outs, total).crash.None?
    decreases |outs|
  {
    if outs != [] {
      TranscribeNoCrash(outs[..|outs| - 1], total);
    }
  }

  /** An exception while transcribing chunk `j` ends the stream, right after that
      chunk's `transcribing` message, with the exception message. */
  lemma ScheduleChunkFailure(wav: bool, failure: AudioFailure, few: bool, outs: seq<ChunkOutcome>, j: nat)
    requires !OpeningFails(wav, failure)
    requires j < |outs| && outs[j].Crash?
    requires forall k :: 0 <= k < j ==> !outs[k].Crash?
    ensures var events := Schedule(wav, failure, few, outs);
            events[|events| - 1] == ExceptionEvent(outs[j].detail) &&
            events[|events| - 2] == TranscribingEvent(j + 1, |outs|, ChunkProgress(j, |outs|))
  {
    var total := |outs|;
    var run := Transcribe(outs, total);
    var t := TranscribingEvent(j + 1, total, ChunkProgress(j, total));
    ScheduleShape(wav, failure, few, outs);
    CrashRun(outs, j);
    var events := Schedule(wav, failure, few, outs);
    assert events == (Opening(wav, few, total) + run.events) + [Closing(run)];
    assert (Opening(wav, few, total) + run.events)[|events| - 2] == t;
  }

  /** The loop that meets an exception at chunk `j + 1` ends with that chunk's
      `transcribing` message and stops with the exception. */
  lemma CrashRun(outs: seq<ChunkOutcome>, j: nat)
    requires j < |outs| && outs[j].Crash?
    requires forall k :: 0 <= k < j ==> !outs[k].Crash?
    ensures var run := Transcribe(outs, |outs|);
            |run.events| > 0 && run.events[|run.events| - 1] == TranscribingEvent(j + 1, |outs|, ChunkProgress(j, |outs|)) &&
            Closing(run) == ExceptionEvent(outs[j].detail)
  {
    var total := |outs|;
    assert forall k :: 0 <= k < j ==> !outs[..j][k].Crash?;
    TranscribeNoCrash(outs[..j], total);
    TranscribeStep(outs, j, total);
    TranscribeStopped(outs, j + 1, total);
    var prev := Transcribe(outs[..j], total);
    assert ChunkEvents(j, total, outs[j]) == [TranscribingEvent(j + 1, total, ChunkProgress(j, total))];
  }

  /** Every message of the stream carries a progress value, and these never decrease. */
  predicate ProgressNondecreasing(events: seq<Payload>) {
    (forall k :: 0 <= k < |events| ==> HasProgress(events, k)) &&
    (forall a, b :: 0 <= a <= b < |events| ==> ProgressAt(events, a) <= ProgressAt(events, b))
  }

  /** Every message carries a progress value in `[lo, hi]`. */
  predicate ProgressWithin(events: seq<Payload>, lo: int, hi: int) {
    forall k :: 0 <= k < |events| ==> HasProgress(events, k) && lo <= ProgressAt(events, k) <= hi
  }

  /** Message `k` carries a progress value. */
  predicate HasProgress(events: seq<Payload>, k: nat)
    requires k < |events|
  {
    events[k].progress.Some?
  }

  /** The progress value of message `k`, 0 when it carries none. */
  function ProgressAt(events: seq<Payload>, k: nat): int
    requires k < |events|
  {
    events[k].progress.GetOr(0)
  }

  lemma NondecreasingAppend(a: seq<Payload>, b: seq<Payload>, lo: int, mid: int, hi: int)
    requires lo <= mid <= hi
    requires ProgressNondecreasing(a) && ProgressWithin(a, lo, mid)
    requires ProgressNondecreasing(b) && ProgressWithin(b, mid, hi)
    ensures ProgressNondecreasing(a + b) && ProgressWithin(a + b, lo, hi)
  {
    forall k | 0 <= k < |a + b|
      ensures HasProgress(a + b, k) && lo <= ProgressAt(a + b, k) <= hi
    {
      if k < |a| {
        assert (a + b)[k] == a[k] && HasProgress(a, k) && ProgressAt(a, k) <= mid;
      } else {
        assert (a + b)[k] == b[k - |a|] && HasProgress(b, k - |a|) && mid <= ProgressAt(b, k - |a|);
      }
    }
    forall x, y | 0 <= x <= y < |a + b|
      ensures ProgressAt(a + b, x) <= ProgressAt(a + b, y)
    {
      if y < |a| {
        assert (a + b)[x] == a[x] && (a + b)[y] == a[y] && ProgressAt(a, x) <= ProgressAt(a, y);
      } else if x >= |a| {
        assert (a + b)[x] == b[x - |a|] && (a + b)[y] == b[y - |a|];
        assert ProgressAt(b, x - |a|) <= ProgressAt(b, y - |a|);
      } else {
        assert (a + b)[x] == a[x] && (a + b)[y] == b[y - |a|];
        assert ProgressAt(a, x) <= mid <= ProgressAt(b, y - |a|);
      }
    }
  }

  /** Every message of one chunk carries that chunk's progress. */
  lemma ChunkEventsProgress(i: nat, total: nat, o: ChunkOutcome)
    requires i < total
    ensures ProgressNondecreasing(ChunkEvents(i, total, o))
    ensures ProgressWithin(ChunkEvents(i, total, o), ChunkProgress(i, total), ChunkProgress(i, total))
  {
    var block := ChunkEvents(i, total, o);
    assert forall k :: 0 <= k < |block| ==> block[k].progress == Some(ChunkProgress(i, total));
  }

  /** The loop's messages have non-decreasing progress between 30 and the progress of
      the last chunk transcribed. */
  lemma {:induction false} TranscribeProgress(outs: seq<ChunkOutcome>, total: nat)
    requires 0 < |outs| <= total
    ensures ProgressNondecreasing(Transcribe(outs, total).events)
    ensures ProgressWithin(Transcribe(outs, total).events, 30, ChunkProgress(|outs| - 1, total))
    decreases |outs|
  {
    var i := |outs| - 1;
    var prev := Transcribe(outs[..i], total);
    var p := ChunkProgress(i, total);
    ChunkEventsProgress(i, total, outs[i]);
    if i == 0 {
      assert |prev.events| == 0 && prev.crash.None?;
      NondecreasingAppend(prev.events, ChunkEvents(i, total, outs[i]), 30, p, p);
    } else {
      TranscribeProgress(outs[..i], total);
      ChunkProgressMonotone(i - 1, i, total);
      WidenWithin(prev.events, 30, ChunkProgress(i - 1, total), p);
      if prev.crash.None? {
        NondecreasingAppend(prev.events, ChunkEvents(i, total, outs[i]), 30, p, p);
      }
    }
  }

  lemma WidenWithin(events: seq<Payload>, lo: int, mid: int, hi: int)
    requires ProgressWithin(events, lo, mid) && mid <= hi
    ensures ProgressWithin(events, lo, hi)
  {
  }

  /** The opening messages carry progress 5, 10, 15, 20, 25 and 30, some of them skipped. */
  lemma OpeningProgress(wav: bool, few: bool, total: nat)
    ensures ProgressNondecreasing(Opening(wav, few, total)) && ProgressWithin(Opening(wav, few, total), 5, 30)
  {
    var time := if few then [SplittingTime] else [];
    DecodedStepsProgress(wav);
    OptionalProgress(!few, SplittingTime);
    OptionalProgress(false, ProcessingEvent(total));
    NondecreasingAppend(Decoded(wav), time, 5, 20, 25);
    NondecreasingAppend(Decoded(wav) + time, [ProcessingEvent(total)], 5, 25, 30);
  }

  /** The decoding steps report 5, 10, 15 and 20. */
  lemma DecodedStepsProgress(wav: bool)
    ensures ProgressNondecreasing(Decoded(wav)) && ProgressWithin(Decoded(wav), 5, 20)
  {
    var conversion := if wav then [] else [Converting];
    var converted := if wav then [] else [Converted];
    OptionalProgress(wav, Converting);
    OptionalProgress(wav, Converted);
    OptionalProgress(false, Loading);
    OptionalProgress(false, Splitting);
    NondecreasingAppend(conversion, converted, 5, 5, 10);
    NondecreasingAppend(conversion + converted, [Loading], 5, 10, 15);
    NondecreasingAppend(conversion + converted + [Loading], [Splitting], 5, 15, 20);
  }

  /** Over the whole stream the progress bar value never goes back. */
  lemma ScheduleProgressNondecreasing(wav: bool, failure: AudioFailure, few: bool, outs: seq<ChunkOutcome>)
    ensures ProgressNondecreasing(Schedule(wav, failure, few, outs))
  {
    if OpeningFails(wav, failure) {
      FailedOpeningProgress(wav, failure, few, outs);
    } else {
      DecodedProgress(wav, failure, few, outs);
    }
  }

  /** A message on its own, or no message, has non-decreasing progress. */
  lemma OptionalProgress(skip: bool, e: Payload)
    requires e.progress.Some?
    ensures var s := if skip then [] else [e];
            ProgressNondecreasing(s) && ProgressWithin(s, e.progress.value, e.progress.value)
  {
  }

  lemma FailedOpeningProgress(wav: bool, failure: AudioFailure, few: bool, outs: seq<ChunkOutcome>)
    requires OpeningFails(wav, failure)
    ensures ProgressNondecreasing(Schedule(wav, failure, few, outs))
  {
    var conversion := if wav then [] else [Converting];
    var converted := if wav then [] else [Converted];
    var exception := [ExceptionEvent(failure.detail)];
    OptionalProgress(wav, Converting);
    OptionalProgress(false, ExceptionEvent(failure.detail));
    if !wav && failure.ConvertFails? {
      NondecreasingAppend(conversion, exception, 5, 5, 100);
    } else {
      OptionalProgress(wav, Converted);
      OptionalProgress(false, Loading);
      NondecreasingAppend(conversion, converted, 5, 5, 10);
      NondecreasingAppend(conversion + converted, [Loading], 5, 10, 15);
      var loading := conversion + converted + [Loading];
      if failure.LoadFails? {
        NondecreasingAppend(loading, exception, 5, 15, 100);
      } else {
        OptionalProgress(false, Splitting);
        NondecreasingAppend(loading, [Splitting], 5, 15, 20);
        NondecreasingAppend(loading + [Splitting], exception, 5, 20, 100);
      }
    }
  }

  lemma DecodedProgress(wav: bool, failure: AudioFailure, few: bool, outs: seq<ChunkOutcome>)
    requires !OpeningFails(wav, failure)
    ensures ProgressNondecreasing(Schedule(wav, failure, few, outs))
  {
    ScheduleShape(wav, failure, few, outs);
    var opening := Opening(wav, few, |outs|);
    OpeningProgress(wav, few, |outs|);
    var run := Transcribe(outs, |outs|);
    var last := [Closing(run)];
    assert Closing(run).progress == Some(100);
    OptionalProgress(false, Closing(run));
    if outs == [] {
      assert |run.events| == 0;
      NondecreasingAppend(opening, run.events, 5, 30, 30);
      NondecreasingAppend(opening + run.events, last, 5, 30, 100);
    } else {
      TranscribeProgress(outs, |outs|);
      NondecreasingAppend(opening, run.events, 5, 30, 90);
      NondecreasingAppend(opening + run.events, last, 5, 90, 100);
    }
  }

  /** A non-WAV file is converted first (progress 5, then 10) before loading (15); a
      WAV file goes straight to loading. */
  lemma ScheduleOpening(wav: bool, failure: AudioFailure, few: bool, outs: seq<ChunkOutcome>)
    ensures var events := Schedule(wav, failure, few, outs);
            if wav then events[0] == Loading
            else events[0] == Converting && (failure.ConvertFails? || (events[1] == Converted && events[2] == Loading))
  {
    var events := Schedule(wav, failure, few, outs);
    var loading := (if wav then [] else [Converting]) + (if wav then [] else [Converted]) + [Loading];
    var heads := if wav then [Loading] else [Converting, Converted, Loading];
    if !wav && failure.ConvertFails? {
    } else if failure.LoadFails? {
      assert loading == heads;
      PrefixIndex(loading, [ExceptionEvent(failure.detail)]);
    } else if failure.SplitFails? {
      assert loading == heads;
      PrefixIndex(loading, [Splitting]);
      PrefixIndex(loading + [Splitting], [ExceptionEvent(failure.detail)]);
    } else {
      var op := Opening(wav, few, |outs|);
      var run := Transcribe(outs, |outs|);
      ScheduleShape(wav, failure, few, outs);
      OpeningHead(wav, few, |outs|);
      PrefixIndex(op, run.events);
      PrefixIndex(op + run.events, [Closing(run)]);
    }
  }

  lemma OpeningHead(wav: bool, few: bool, total: nat)
    ensures var op := Opening(wav, few, total);
            if wav then |op| >= 1 && op[0] == Loading
            else |op| >= 3 && op[0] == Converting && op[1] == Converted && op[2] == Loading
  {
  }

  lemma PrefixIndex<T>(a: seq<T>, b: seq<T>)
    ensures forall k :: 0 <= k < |a| ==> (a + b)[k] == a[k]
  {
  }

  /** Time splitting happens exactly when silence detection gave fewer than five chunks. */
  lemma ScheduleSplitsByTime(wav: bool, failure: AudioFailure, few: bool, outs: seq<ChunkOutcome>)
    requires !OpeningFails(wav, failure)
    ensures var events := Schedule(wav, failure, few, outs);
            var k := if wav then 2 else 4;
            (events[k] == SplittingTime <==> few) && events[if few then k + 1 else k] == ProcessingEvent(|outs|)
  {
    ScheduleShape(wav, failure, few, outs);
    var op := Opening(wav, few, |outs|);
    var run := Transcribe(outs, |outs|);
    var k := if wav then 2 else 4;
    OpeningSplits(wav, few, |outs|);
    assert ProcessingEvent(|outs|) != SplittingTime;
    var rest := run.events + [Closing(run)];
    AppendAssoc(op, run.events, [Closing(run)]);
    PrefixIndex(op, rest);
  }

  lemma OpeningSplits(wav: bool, few: bool, total: nat)
    ensures var op := Opening(wav, few, total);
            var k := if wav then 2 else 4;
            |op| == k + (if few then 2 else 1) &&
            op[k] == (if few then SplittingTime else ProcessingEvent(total)) &&
            op[if few then k + 1 else k] == ProcessingEvent(total)
  {
  }
}

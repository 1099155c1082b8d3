/** The page's state and its handlers. The document is abstracted to the parts the
    handlers read or write: which of the four panels is visible, the texts shown, the
    long-file advisories, the per-transcription details (chunk indicators and log),
    the cancel and back buttons; the script's own variables are the chosen file,
    the cancellation flag, the current event stream and the partial texts. Each
    function returns the state after the handler has run to its end, or to the
    point where it raises. */
module Client {
  import opened Wrappers
  import opened Strings
  import opened Events
  import opened ClientFiles

  /** A chunk indicator: grey until marked, green for text, red for a failed chunk,
      yellow for a successful retry. */
  datatype Colour = Grey | Green | Red | Yellow

  /** The class of a log line. */
  datatype Severity = Info | Failure | Success

  /** A log line, without its clock-time prefix. */
  datatype LogEntry = LogEntry(text: string, severity: Severity)

  /** The chunk counter and one indicator per chunk. */
  datatype ChunksPanel = ChunksPanel(counter: string, indicators: seq<Colour>)

  /** The details area under the progress bar. */
  datatype Details = Details(chunks: Option<ChunksPanel>, log: seq<LogEntry>)

  /** An event stream the page opened; `id` tells streams apart. */
  datatype Connection = Connection(id: nat, url: string)

  /** The parts of the document the handlers read or write. */
  datatype Document = Document(
    fileInfoShown: bool,
    progressShown: bool,
    resultsShown: bool,
    errorShown: bool,
    fileNameText: string,
    fileSizeText: string,
    warnings: seq<Advisory>,
    errorText: string,
    progressText: string,
    progressWidth: int,
    details: Option<Details>,
    cancelButton: bool,
    backButtons: nat,
    transcript: string)

  /** The script's variables beside the document. `open` and `nextId` are the
      page's bookkeeping of the event streams it has opened and not closed. */
  datatype PageState = PageState(
    selected: Option<AudioFile>,
    aborted: bool,
    stream: Option<Connection>,
    open: set<nat>,
    nextId: nat,
    partial: map<Option<int>, Option<string>>,
    doc: Document)

  /** The page as loaded: nothing chosen, no stream, every panel hidden. */
  const Initial := PageState(None, false, None, {}, 0, map[],
                             Document(false, false, false, false, "", "", [], "", "", 0, None, false, 0, ""))

  const StartLog := "Iniciando proceso de transcripción..."
  const UploadingText := "Subiendo archivo..."
  const UploadFailedMessage := "Error al subir el archivo"
  const ConnectionMessage := "Error de conexión. Por favor, verifica tu conexión a internet e intenta de nuevo."
  const StreamLostLog := "Error en la conexión. La transcripción puede estar incompleta."
  const CancelledText := "Procesamiento cancelado"
  const CompletedText := "¡Transcripción completada!"
  const CompletedLog := "✓ Transcripción finalizada correctamente"
  const FailedText := "Error en la transcripción"

  /** What the page reads from the upload reply: `Unreadable` when the request failed
      or the body is not JSON. */
  datatype UploadReply = Unreadable | Reply(success: bool, filename: string, error: Option<string>)

  /** A string assigned as element text: an absent value shows nothing. */
  function TextOf(s: Option<string>): string {
    s.GetOr("")
  }

  /** A string value spliced into a template: an absent value reads `undefined`. */
  function Show(s: Option<string>): string {
    s.GetOr("undefined")
  }

  /** A number spliced into a template. */
  function ShowInt(n: Option<int>): string {
    match n
    case None => "undefined"
    case Some(v) => IntToString(v)
  }

  /** A string's `length`: the number of UTF-16 code units. */
  function Utf16Length(s: string): (n: nat)
    ensures |s| <= n <= 2 * |s|
    decreases |s|
  {
    if s == [] then 0 else Utf16Length(s[..|s| - 1]) + (if s[|s| - 1] as int > 0xFFFF then 2 else 1)
  }

  /** `showError`: the error panel shows `message`; nothing else changes. */
  function ShowError(p: PageState, message: string): (r: PageState)
    ensures r.doc.errorText == message && r.doc.errorShown
    ensures r.(doc := r.doc.(errorText := p.doc.errorText, errorShown := p.doc.errorShown)) == p
  {
    p.(doc := p.doc.(errorText := message, errorShown := true))
  }

  /** A log line is written only while the details area exists. */
  function AddLog(p: PageState, text: string, severity: Severity): (r: PageState)
    ensures r.doc.details.Some? <==> p.doc.details.Some?
    ensures r.doc.details.Some? ==>
              r.doc.details.value.chunks == p.doc.details.value.chunks &&
              r.doc.details.value.log == p.doc.details.value.log + [LogEntry(text, severity)]
    ensures r.(doc := r.doc.(details := p.doc.details)) == p
  {
    match p.doc.details
    case None => p
    case Some(d) => p.(doc := p.doc.(details := Some(d.(log := d.log + [LogEntry(text, severity)]))))
  }

  /** Closes the current stream, if any, and forgets it. */
  function CloseStream(p: PageState): (r: PageState)
    ensures r.stream.None?
    ensures p.stream.Some? ==> r.open == p.open - {p.stream.value.id}
    ensures p.stream.None? ==> r.open == p.open
    ensures r.(stream := p.stream, open := p.open) == p
  {
    match p.stream
    case None => p
    case Some(c) => p.(open := p.open - {c.id}, stream := None)
  }

  /** Choosing a file: refused with an error, or staged with its name, size and,
      for a long file, a new advisory replacing the first existing one. */
  function HandleFiles(p: PageState, f: AudioFile): (r: PageState)
    ensures StagingError(f).Some? ==>
              r.selected == p.selected && r.doc.errorShown && r.doc.errorText == StagingError(f).value
    ensures StagingError(f).None? ==> r.selected == Some(f) && r.doc.fileInfoShown && !r.doc.errorShown
    ensures r.stream == p.stream && r.open == p.open && r.nextId == p.nextId && r.doc.details == p.doc.details
  {
    match StagingError(f)
    case Some(m) => ShowError(p, m)
    case None =>
      var q := p.(selected := Some(f),
                  doc := p.doc.(fileNameText := f.name, fileSizeText := FormatFileSize(f.size),
                                fileInfoShown := true, errorShown := false));
      match AdvisoryFor(f)
      case None => q
      case Some(a) => q.(doc := q.doc.(warnings := (if q.doc.warnings == [] then [] else q.doc.warnings[1..]) + [a]))
  }

  /** Starting a transcription; without a chosen file nothing happens. */
  function TranscribeAudio(p: PageState): (r: PageState)
    ensures p.selected.None? ==> r == p
    ensures p.selected.Some? ==>
              !r.aborted && r.partial == map[] && r.doc.progressShown && !r.doc.fileInfoShown &&
              r.doc.details == Some(Details(None, [LogEntry(StartLog, Info)])) &&
              r.doc.progressText == UploadingText && r.doc.progressWidth == 5
    ensures r.selected == p.selected && r.stream == p.stream && r.open == p.open && r.doc.warnings == p.doc.warnings
  {
    if p.selected.None? then p
    else
      p.(aborted := false, partial := map[],
         doc := p.doc.(fileInfoShown := false, progressShown := true,
                       details := Some(Details(None, [LogEntry(StartLog, Info)])),
                       progressText := UploadingText, progressWidth := 5))
  }

  /** Opening the event stream for a stored file: the previous stream is closed
      and the cancel button is present. */
  function StartStream(p: PageState, filename: string): (r: PageState)
    ensures r.stream == Some(Connection(p.nextId, "/transcribe/" + filename))
    ensures r.open == (if p.stream.Some? then p.open - {p.stream.value.id} else p.open) + {p.nextId}
    ensures r.nextId == p.nextId + 1 && r.doc.cancelButton
    ensures r.selected == p.selected && r.partial == p.partial && r.doc.details == p.doc.details
  {
    var q := CloseStream(p);
    q.(open := q.open + {q.nextId}, stream := Some(Connection(q.nextId, "/transcribe/" + filename)),
       nextId := q.nextId + 1, doc := q.doc.(cancelButton := true))
  }

  /** The reply to the upload: a stored file opens the stream; otherwise the
      progress panel is hidden and an error shown. */
  function OnUploadReply(p: PageState, reply: UploadReply): (r: PageState)
    ensures reply.Reply? && reply.success ==> r == StartStream(p, reply.filename)
    ensures reply.Unreadable? ==> r.doc.errorShown && r.doc.errorText == ConnectionMessage
    ensures reply.Reply? && !reply.success ==>
              r.doc.errorShown &&
              r.doc.errorText == (if reply.error.Some? && reply.error.value != "" then reply.error.value else UploadFailedMessage)
    ensures !(reply.Reply? && reply.success) ==>
              !r.doc.progressShown && r.stream == p.stream && r.open == p.open && r.selected == p.selected
  {
    match reply
    case Unreadable => ShowError(p.(doc := p.doc.(progressShown := false)), ConnectionMessage)
    case Reply(success, filename, error) =>
      if success then StartStream(p, filename)
      else
        var message := if error.None? || error.value == "" then UploadFailedMessage else error.value;
        var q := ShowError(p, message);
        q.(doc := q.doc.(progressShown := false))
  }

  /** The indicators made when the chunk count arrives: one grey per chunk; none for
      an absent or non-positive count. */
  function InitialIndicators(total: Option<int>): (ind: seq<Colour>)
    ensures |ind| == if total.Some? && total.value > 0 then total.value else 0
    ensures forall j :: 0 <= j < |ind| ==> ind[j] == Grey
  {
    var n := if total.Some? && total.value > 0 then total.value else 0;
    seq(n, _ => Grey)
  }

  function CounterText(current: Option<int>, total: Option<int>): string {
    "Progreso de fragmentos: " + ShowInt(current) + "/" + ShowInt(total)
  }

  /** Colours indicator `k` (counted from 1); an absent or out-of-range chunk number
      changes nothing, and no other indicator changes. */
  function MarkIndicator(ind: seq<Colour>, k: Option<int>, c: Colour): (r: seq<Colour>)
    ensures |r| == |ind|
    ensures k.Some? && 1 <= k.value <= |ind| ==> r[k.value - 1] == c
    ensures forall j :: 0 <= j < |ind| && (k.None? || j != k.value - 1) ==> r[j] == ind[j]
  {
    if k.Some? && 1 <= k.value <= |ind| then ind[k.value - 1 := c] else ind
  }

  /** The indicators live in the chunks panel, if it exists. */
  function MarkChunk(p: PageState, k: Option<int>, c: Colour): (r: PageState)
    ensures r.(doc := r.doc.(details := p.doc.details)) == p
    ensures r.doc.details.Some? <==> p.doc.details.Some?
    ensures p.doc.details.Some? ==>
              r.doc.details.value.log == p.doc.details.value.log &&
              (r.doc.details.value.chunks.Some? <==> p.doc.details.value.chunks.Some?)
    ensures p.doc.details.Some? && p.doc.details.value.chunks.Some? ==>
              r.doc.details.value.chunks.value.counter == p.doc.details.value.chunks.value.counter
  {
    match p.doc.details
    case Some(Details(Some(panel), log)) =>
      p.(doc := p.doc.(details := Some(Details(Some(panel.(indicators := MarkIndicator(panel.indicators, k, c))), log))))
    case _ => p
  }

  /** `processing` creates the chunks panel once. Without a details area the
      handler raises before anything is created. */
  function CreateChunks(p: PageState, total: Option<int>): (r: PageState)
    ensures r.(doc := r.doc.(details := p.doc.details)) == p
  {
    match p.doc.details
    case Some(Details(None, log)) =>
      p.(doc := p.doc.(details := Some(Details(Some(ChunksPanel(CounterText(Some(0), total), InitialIndicators(total))), log))))
    case _ => p
  }

  function UpdateCounter(p: PageState, current: Option<int>, total: Option<int>): (r: PageState)
    ensures r.(doc := r.doc.(details := p.doc.details)) == p
  {
    match p.doc.details
    case Some(Details(Some(panel), log)) =>
      p.(doc := p.doc.(details := Some(Details(Some(panel.(counter := CounterText(current, total))), log))))
    case _ => p
  }

  /** The branches of the reducer's `switch` on the status. */
  datatype StatusKind = Stage | Processing | Transcribing | PartialText | ChunkError | RetrySuccess
                      | Completed | Failed | Other

  function Kind(status: string): StatusKind {
    if status in {"converting", "converted", "loading", "splitting", "splitting_time"} then Stage
    else if status == "processing" then Processing
    else if status == "transcribing" then Transcribing
    else if status == "partial_text" then PartialText
    else if status == "chunk_error" then ChunkError
    else if status == "retry_success" then RetrySuccess
    else if status == "completed" then Completed
    else if status == "error" then Failed
    else Other
  }

  /** The two statuses that close the stream are the last two branches. */
  lemma KindTerminal(e: Payload)
    ensures Terminal(e) <==> Kind(e.status) in {Completed, Failed}
  {
  }

  /** A truthy progress value moves the bar; an absent or zero one does not. */
  function MoveBar(p: PageState, progress: Option<int>): (r: PageState)
    ensures r.(doc := r.doc.(progressWidth := p.doc.progressWidth)) == p
  {
    if progress.Some? && progress.value != 0 then p.(doc := p.doc.(progressWidth := progress.value)) else p
  }

  function PartialLog(chunk: Option<int>, text: string): string {
    "✓ Fragmento " + ShowInt(chunk) + " transcrito (" + NatToString(Utf16Length(text)) + " caracteres)"
  }

  function RetryLog(chunk: Option<int>): string {
    "↻ Reintento exitoso para fragmento " + ShowInt(chunk)
  }

  /** The status line under the bar shows `text`. */
  function Status(p: PageState, text: string): PageState {
    p.(doc := p.doc.(progressText := text))
  }

  /** The reducer applied to one stream message. */
  function UpdateUI(p: PageState, e: Payload): (r: PageState)
    ensures Untouched(p, r)
    ensures !Terminal(e) ==> r.doc.progressShown == p.doc.progressShown && r.doc.resultsShown == p.doc.resultsShown
  {
    Branch(MoveBar(p, e.progress), e, Kind(e.status))
  }

  /** The reducer's branch `k`, after the bar has moved. A `partial_text` message
      without text raises while writing its log line. */
  function Branch(q: PageState, e: Payload, k: StatusKind): (r: PageState)
    ensures Untouched(q, r)
    ensures k != Completed && k != Failed ==>
              r.doc.progressShown == q.doc.progressShown && r.doc.resultsShown == q.doc.resultsShown
  {
    match k
    case Stage =>
      AddLog(Status(q, TextOf(e.message)), Show(e.message), Info)
    case Processing =>
      CreateChunks(AddLog(Status(q, TextOf(e.message)), Show(e.message), Info), e.totalChunks)
    case Transcribing =>
      UpdateCounter(AddLog(Status(q, TextOf(e.message)), Show(e.message), Info), e.currentChunk, e.totalChunks)
    case PartialText =>
      var r := MarkChunk(q.(partial := q.partial[e.chunkNumber := e.partialText]), e.chunkNumber, Green);
      if e.partialText.None? then r else AddLog(r, PartialLog(e.chunkNumber, e.partialText.value), Info)
    case ChunkError =>
      AddLog(MarkChunk(q, e.currentChunk, Red), Show(e.message), Failure)
    case RetrySuccess =>
      var r := MarkChunk(q.(partial := q.partial[e.chunkNumber := e.partialText]), e.chunkNumber, Yellow);
      AddLog(r, RetryLog(e.chunkNumber), Info)
    case Completed =>
      var r := AddLog(Status(q, CompletedText), CompletedLog, Success);
      r.(doc := r.doc.(transcript := TextOf(e.fullText), progressShown := false, resultsShown := true))
    case Failed =>
      var r := ShowError(AddLog(Status(q, FailedText), Show(e.message), Failure), TextOf(e.message));
      r.(doc := r.doc.(progressShown := false))
    case Other => q
  }

  /** A message on the current stream: the reducer, then, for a terminal status,
      the stream is closed and the cancel button removed. */
  function OnMessage(p: PageState, e: Payload): (r: PageState)
    ensures Terminal(e) ==>
              r.stream.None? && !r.doc.cancelButton &&
              r.open == (if p.stream.Some? then p.open - {p.stream.value.id} else p.open)
    ensures !Terminal(e) ==> r.stream == p.stream && r.open == p.open && r.doc.cancelButton == p.doc.cancelButton
    ensures r.selected == p.selected && r.nextId == p.nextId && r.doc.warnings == p.doc.warnings
  {
    var q := UpdateUI(p, e);
    if Terminal(e) then
      var r := CloseStream(q);
      r.(doc := r.doc.(cancelButton := false))
    else q
  }

  /** A closed stream delivers nothing. */
  function Deliver(p: PageState, id: nat, e: Payload): (r: PageState)
    ensures !(p.stream.Some? && p.stream.value.id == id) ==> r == p
    ensures r.open <= p.open && r.nextId == p.nextId && r.selected == p.selected
  {
    if p.stream.Some? && p.stream.value.id == id then OnMessage(p, e) else p
  }

  /** The stream broke: it is closed, the loss logged and the cancel button removed. */
  function OnStreamError(p: PageState, id: nat): (r: PageState)
    ensures !(p.stream.Some? && p.stream.value.id == id) ==> r == p
    ensures p.stream.Some? && p.stream.value.id == id ==>
              r.stream.None? && r.open == p.open - {id} && !r.doc.cancelButton &&
              (r.doc.details.Some? <==> p.doc.details.Some?) &&
              (p.doc.details.Some? ==> r.doc.details.value.log == p.doc.details.value.log + [LogEntry(StreamLostLog, Failure)])
    ensures r.selected == p.selected && r.partial == p.partial && r.doc.progressShown == p.doc.progressShown
  {
    if p.stream.Some? && p.stream.value.id == id then
      var r := AddLog(CloseStream(p), StreamLostLog, Failure);
      r.(doc := r.doc.(cancelButton := false))
    else p
  }

  /** The cancel button: the stream is closed and the button replaced by a back button. */
  function Cancel(p: PageState): (r: PageState)
    ensures !p.doc.cancelButton ==> r == p
    ensures p.doc.cancelButton ==>
              r.stream.None? && r.aborted && !r.doc.cancelButton && r.doc.backButtons == p.doc.backButtons + 1 &&
              r.doc.progressText == CancelledText
    ensures r.doc.progressShown == p.doc.progressShown && r.partial == p.partial && r.selected == p.selected
  {
    if !p.doc.cancelButton then p
    else
      var q := CloseStream(p);
      q.(aborted := true,
         doc := q.doc.(progressText := CancelledText, cancelButton := false, backButtons := p.doc.backButtons + 1))
  }

  /** Back to the start: the chosen file, the panels, the bar, the stream, the first
      advisory, the details and the cancel button are cleared. */
  function ResetUpload(p: PageState): (r: PageState)
    ensures r.selected.None? && r.stream.None? && r.doc.details.None? && !r.doc.cancelButton
    ensures !r.doc.fileInfoShown && !r.doc.progressShown && !r.doc.resultsShown && !r.doc.errorShown
    ensures r.doc.warnings == if p.doc.warnings == [] then [] else p.doc.warnings[1..]
    ensures r.nextId == p.nextId && r.open <= p.open
  {
    var q := CloseStream(p.(selected := None,
                            doc := p.doc.(fileInfoShown := false, progressShown := false, resultsShown := false,
                                          errorShown := false, progressWidth := 0)));
    q.(doc := q.doc.(warnings := if q.doc.warnings == [] then [] else q.doc.warnings[1..], details := None,
                     cancelButton := false))
  }

  /** What can happen to the page. */
  datatype Action =
    | Pick(file: AudioFile)
    | StartTranscription
    | Uploaded(reply: UploadReply)
    | Message(id: nat, event: Payload)
    | StreamFailed(id: nat)
    | CancelProcessing
    | ResetPage

  function Step(p: PageState, a: Action): PageState {
    match a
    case Pick(f) => HandleFiles(p, f)
    case StartTranscription => TranscribeAudio(p)
    case Uploaded(r) => OnUploadReply(p, r)
    case Message(id, e) => Deliver(p, id, e)
    case StreamFailed(id) => OnStreamError(p, id)
    case CancelProcessing => Cancel(p)
    case ResetPage => ResetUpload(p)
  }

  function Run(p: PageState, actions: seq<Action>): PageState
    decreases |actions|
  {
    if actions == [] then p else Step(Run(p, actions[..|actions| - 1]), actions[|actions| - 1])
  }

  /** The page's invariant: at most one advisory; the open streams are exactly the
      one the page refers to, named below the next fresh name; a chosen file passed
      both checks. */
  predicate Valid(p: PageState) {
    |p.doc.warnings| <= 1 &&
    p.open == (if p.stream.Some? then {p.stream.value.id} else {}) &&
    (p.stream.Some? ==> p.stream.value.id < p.nextId) &&
    (p.selected.Some? ==> StagingError(p.selected.value).None?)
  }

  lemma InitialValid()
    ensures Valid(Initial)
  {
  }

  lemma CloseStreamValid(p: PageState)
    requires Valid(p)
    ensures CloseStream(p).open == {} && CloseStream(p).stream.None?
  {
  }

  /** `r` has the stream bookkeeping, the chosen file, the advisories and the cancel
      button of `p`. */
  predicate Untouched(p: PageState, r: PageState) {
    r.stream == p.stream && r.open == p.open && r.nextId == p.nextId &&
    r.selected == p.selected && r.doc.warnings == p.doc.warnings && r.doc.cancelButton == p.doc.cancelButton
  }

  /** Every action keeps the invariant, so no stream is ever left open unreferenced. */
  lemma StepValid(p: PageState, a: Action)
    requires Valid(p)
    ensures Valid(Step(p, a))
  {
    match a {
      case Pick(f) => HandleFilesValid(p, f);
      case StartTranscription =>
      case Uploaded(r) => OnUploadReplyValid(p, r);
      case Message(id, e) =>
      case StreamFailed(id) =>
      case CancelProcessing =>
      case ResetPage => ResetUploadValid(p);
    }
  }

  lemma HandleFilesValid(p: PageState, f: AudioFile)
    requires Valid(p)
    ensures Valid(HandleFiles(p, f))
  {
    if StagingError(f).None? && AdvisoryFor(f).Some? {
      var w := p.doc.warnings;
      assert |(if w == [] then [] else w[1..]) + [AdvisoryFor(f).value]| == 1;
    }
  }

  lemma OnUploadReplyValid(p: PageState, reply: UploadReply)
    requires Valid(p)
    ensures Valid(OnUploadReply(p, reply))
  {
    match reply {
      case Unreadable =>
      case Reply(success, filename, error) =>
        if success {
          StartStreamValid(p, filename);
        }
    }
  }

  lemma StartStreamValid(p: PageState, filename: string)
    requires Valid(p)
    ensures Valid(StartStream(p, filename))
  {
    CloseStreamValid(p);
  }

  lemma ResetUploadValid(p: PageState)
    requires Valid(p)
    ensures Valid(ResetUpload(p))
  {
  }

  lemma {:induction false} RunValid(p: PageState, actions: seq<Action>)
    requires Valid(p)
    ensures Valid(Run(p, actions))
    ensures |Run(p, actions).open| <= 1
    decreases |actions|
  {
    if actions != [] {
      RunValid(p, actions[..|actions| - 1]);
      StepValid(Run(p, actions[..|actions| - 1]), actions[|actions| - 1]);
    }
    var r := Run(p, actions);
    assert r.stream.Some? ==> r.open == {r.stream.value.id};
  }
}

/** What the page's handlers promise, stated over `Client`. */
module ClientFacts {
  import opened Wrappers
  import opened Strings
  import opened Events
  import opened ClientFiles
  import opened Client

  /** The type test runs first: a file of the wrong type is refused as such even
      when it is also too large, and a refused file leaves everything but the error
      panel as it was. */
  lemma HandleFilesRefuses(p: PageState, f: AudioFile)
    requires StagingError(f).Some?
    ensures HandleFiles(p, f) == p.(doc := p.doc.(errorText := StagingError(f).value, errorShown := true))
    ensures !TypeAccepted(f) ==> HandleFiles(p, f).doc.errorText == UnsupportedTypeMessage
  {
  }

  /** A staged file replaces the chosen one and is described in the file panel,
      which is shown while the error panel is hidden. */
  lemma HandleFilesStages(p: PageState, f: AudioFile)
    requires StagingError(f).None?
    ensures var r := HandleFiles(p, f);
            r.selected == Some(f) && r.doc.fileInfoShown && !r.doc.errorShown &&
            r.doc.fileNameText == f.name && r.doc.fileSizeText == FormatFileSize(f.size)
    ensures AdvisoryFor(f).None? ==> HandleFiles(p, f).doc.warnings == p.doc.warnings
    ensures AdvisoryFor(f).Some? ==>
              HandleFiles(p, f).doc.warnings == (if p.doc.warnings == [] then [] else p.doc.warnings[1..]) + [AdvisoryFor(f).value]
  {
  }

  /** The cap is inclusive: exactly 100 MiB is staged, one byte more is refused and
      the chosen file stays as it was. */
  lemma HandleFilesCap(p: PageState, name: string, mime: string)
    requires mime in AllowedTypes
    ensures HandleFiles(p, AudioFile(name, 104857600, mime)).selected == Some(AudioFile(name, 104857600, mime))
    ensures HandleFiles(p, AudioFile(name, 104857601, mime)) == ShowError(p, TooLargeMessage)
  {
  }

  /** Advisories do not pile up: at most one is present after choosing a file. */
  lemma HandleFilesOneAdvisory(p: PageState, f: AudioFile)
    requires |p.doc.warnings| <= 1
    ensures |HandleFiles(p, f).doc.warnings| <= 1
  {
  }

  const LongFile := AudioFile("larga.wav", 60000000, "audio/wav")
  const ShortFile := AudioFile("corta.wav", 1000, "audio/wav")

  /** The old advisory is removed only when the new file gets one: after a long file
      and then a short one, the short file is staged under the long file's advisory. */
  lemma StaleAdvisory()
    ensures AdvisoryFor(LongFile).Some? && AdvisoryFor(ShortFile).None?
    ensures var r := HandleFiles(HandleFiles(Initial, LongFile), ShortFile);
            r.selected == Some(ShortFile) && r.doc.warnings == [AdvisoryFor(LongFile).value]
  {
    AdvisoryIff(LongFile);
    AdvisoryIff(ShortFile);
    assert NameMatches(LongFile.name) by { assert ".wav" in NameEndings; }
  }

  /** The panels are not exclusive: a refused file shows the error panel beside the
      file panel of the file staged before it, which stays chosen. */
  lemma RefusalKeepsFilePanel(p: PageState, f: AudioFile, g: AudioFile)
    requires StagingError(f).None? && StagingError(g).Some?
    ensures var r := HandleFiles(HandleFiles(p, f), g);
            r.selected == Some(f) && r.doc.fileInfoShown && r.doc.errorShown
  {
    HandleFilesStages(p, f);
    HandleFilesRefuses(HandleFiles(p, f), g);
  }

  /** The indicators, when the chunks panel exists. */
  function Indicators(p: PageState): Option<seq<Colour>> {
    match p.doc.details
    case Some(Details(Some(panel), _)) => Some(panel.indicators)
    case _ => None
  }

  function MarkBoth(ind: Option<seq<Colour>>, k: Option<int>, c: Colour): Option<seq<Colour>> {
    match ind
    case None => None
    case Some(s) => Some(MarkIndicator(s, k, c))
  }

  lemma MarkChunkIndicators(p: PageState, k: Option<int>, c: Colour)
    ensures Indicators(MarkChunk(p, k, c)) == MarkBoth(Indicators(p), k, c)
  {
  }

  lemma AddLogIndicators(p: PageState, text: string, severity: Severity)
    ensures Indicators(AddLog(p, text, severity)) == Indicators(p)
  {
  }

  /** `processing` makes one grey indicator per chunk when there are none, and leaves
      existing ones alone. */
  lemma ProcessingCreatesOnce(p: PageState, e: Payload)
    requires Kind(e.status) == Processing && p.doc.details.Some?
    ensures Indicators(p).Some? ==> Indicators(UpdateUI(p, e)) == Indicators(p)
    ensures Indicators(p).None? ==> Indicators(UpdateUI(p, e)) == Some(InitialIndicators(e.totalChunks))
  {
  }

  /** `partial_text` records the text under its chunk number and turns that
      indicator green. */
  lemma PartialTextRecords(p: PageState, e: Payload)
    requires Kind(e.status) == PartialText
    ensures UpdateUI(p, e).partial == p.partial[e.chunkNumber := e.partialText]
    ensures Indicators(UpdateUI(p, e)) == MarkBoth(Indicators(p), e.chunkNumber, Green)
  {
    var q := MoveBar(p, e.progress);
    var r := MarkChunk(q.(partial := q.partial[e.chunkNumber := e.partialText]), e.chunkNumber, Green);
    MarkChunkIndicators(q.(partial := q.partial[e.chunkNumber := e.partialText]), e.chunkNumber, Green);
    if e.partialText.Some? {
      AddLogIndicators(r, PartialLog(e.chunkNumber, e.partialText.value), Info);
    }
  }

  /** `retry_success` overwrites the text under its chunk number and turns that
      indicator yellow. */
  lemma RetrySuccessRecords(p: PageState, e: Payload)
    requires Kind(e.status) == RetrySuccess
    ensures UpdateUI(p, e).partial == p.partial[e.chunkNumber := e.partialText]
    ensures Indicators(UpdateUI(p, e)) == MarkBoth(Indicators(p), e.chunkNumber, Yellow)
  {
    var q := MoveBar(p, e.progress);
    var r := MarkChunk(q.(partial := q.partial[e.chunkNumber := e.partialText]), e.chunkNumber, Yellow);
    MarkChunkIndicators(q.(partial := q.partial[e.chunkNumber := e.partialText]), e.chunkNumber, Yellow);
    AddLogIndicators(r, RetryLog(e.chunkNumber), Info);
  }

  /** `chunk_error` turns the indicator named by `currentChunk` red and keeps the
      partial texts. */
  lemma ChunkErrorMarks(p: PageState, e: Payload)
    requires Kind(e.status) == ChunkError
    ensures UpdateUI(p, e).partial == p.partial
    ensures Indicators(UpdateUI(p, e)) == MarkBoth(Indicators(p), e.currentChunk, Red)
  {
    var q := MoveBar(p, e.progress);
    MarkChunkIndicators(q, e.currentChunk, Red);
    AddLogIndicators(MarkChunk(q, e.currentChunk, Red), Show(e.message), Failure);
  }

  /** Any other status only moves the bar, and only for a non-zero progress value. */
  lemma OtherStatusMovesBarOnly(p: PageState, e: Payload)
    requires Kind(e.status) == Other
    ensures e.progress.Some? && e.progress.value != 0 ==> UpdateUI(p, e) == p.(doc := p.doc.(progressWidth := e.progress.value))
    ensures !(e.progress.Some? && e.progress.value != 0) ==> UpdateUI(p, e) == p
  {
  }

  /** `completed` shows the full text in the results panel and hides the progress panel. */
  lemma CompletedShowsResults(p: PageState, e: Payload)
    requires Kind(e.status) == Completed
    ensures var r := UpdateUI(p, e);
            r.doc.transcript == TextOf(e.fullText) && r.doc.resultsShown && !r.doc.progressShown && r.doc.progressText == CompletedText
  {
  }

  /** `error` shows its message in the error panel and hides the progress panel. */
  lemma ErrorShowsMessage(p: PageState, e: Payload)
    requires Kind(e.status) == Failed
    ensures var r := UpdateUI(p, e);
            r.doc.errorShown && r.doc.errorText == TextOf(e.message) && !r.doc.progressShown && r.doc.progressText == FailedText
  {
  }

  /** Opening a stream closes any previous one: afterwards only the new stream is open. */
  lemma StartStreamClosesPrevious(p: PageState, filename: string)
    requires Valid(p)
    ensures var r := StartStream(p, filename);
            r.stream.Some? && r.open == {r.stream.value.id} && r.doc.cancelButton &&
            r.stream.value.url == "/transcribe/" + filename &&
            (p.stream.Some? ==> p.stream.value.id != r.stream.value.id)
  {
  }

  /** A `completed` or `error` message on the current stream closes it. */
  lemma TerminalMessageCloses(p: PageState, id: nat, e: Payload)
    requires Valid(p) && p.stream.Some? && p.stream.value.id == id && Terminal(e)
    ensures var r := Deliver(p, id, e);
            r.stream.None? && r.open == {} && !r.doc.cancelButton
  {
  }

  /** A message of another status leaves the stream open. */
  lemma OtherMessageKeepsStream(p: PageState, id: nat, e: Payload)
    requires !Terminal(e)
    ensures Deliver(p, id, e).stream == p.stream && Deliver(p, id, e).open == p.open
  {
  }

  /** A stream error on the current stream closes it. */
  lemma StreamErrorCloses(p: PageState, id: nat)
    requires Valid(p) && p.stream.Some? && p.stream.value.id == id
    ensures var r := OnStreamError(p, id);
            r.stream.None? && r.open == {} && !r.doc.cancelButton
  {
  }

  /** Cancelling closes the stream, marks the run aborted and leaves a back button;
      the progress panel, the partial texts and the chosen file stay. */
  lemma CancelCloses(p: PageState)
    requires Valid(p) && p.doc.cancelButton
    ensures var r := Cancel(p);
            r.stream.None? && r.open == {} && r.aborted && !r.doc.cancelButton && r.doc.backButtons == p.doc.backButtons + 1
    ensures var r := Cancel(p);
            r.doc.progressShown == p.doc.progressShown && r.partial == p.partial && r.selected == p.selected
  {
  }

  /** After a reset nothing is chosen, no stream is open, every panel is hidden, the
      bar is at zero and no advisory, details or cancel button remain. */
  lemma ResetClears(p: PageState)
    requires Valid(p)
    ensures var r := ResetUpload(p);
            r.selected.None? && r.stream.None? && r.open == {} &&
            !r.doc.fileInfoShown && !r.doc.progressShown && !r.doc.resultsShown && !r.doc.errorShown &&
            r.doc.progressWidth == 0 && r.doc.warnings == [] && r.doc.details.None? && !r.doc.cancelButton
  {
  }

  /** What a reset does not clear: the partial texts, the back buttons, the texts
      last written and the cancellation flag. */
  lemma ResetKeeps(p: PageState)
    ensures var r := ResetUpload(p);
            r.partial == p.partial && r.doc.backButtons == p.doc.backButtons && r.doc.transcript == p.doc.transcript &&
            r.doc.errorText == p.doc.errorText && r.doc.progressText == p.doc.progressText && r.aborted == p.aborted
  {
  }

  /** Resetting twice is resetting once. */
  lemma ResetIdempotent(p: PageState)
    requires Valid(p)
    ensures ResetUpload(ResetUpload(p)) == ResetUpload(p)
  {
  }

  /** The page fed the messages of stream `id`, in order. */
  function Feed(p: PageState, id: nat, events: seq<Payload>): PageState
    decreases |events|
  {
    if events == [] then p else Deliver(Feed(p, id, events[..|events| - 1]), id, events[|events| - 1])
  }

  lemma {:induction false} FeedAppend(p: PageState, id: nat, a: seq<Payload>, b: seq<Payload>)
    ensures Feed(p, id, a + b) == Feed(Feed(p, id, a), id, b)
    decreases |b|
  {
    if b == [] {
      assert a + b == a;
    } else {
      FeedAppend(p, id, a, b[..|b| - 1]);
      assert (a + b)[..|a + b| - 1] == a + b[..|b| - 1];
    }
  }

  /** Once the page no longer listens to stream `id`, its messages change nothing. */
  lemma {:induction false} FeedIgnored(p: PageState, id: nat, events: seq<Payload>)
    requires !(p.stream.Some? && p.stream.value.id == id)
    ensures Feed(p, id, events) == p
    decreases |events|
  {
    if events != [] {
      FeedIgnored(p, id, events[..|events| - 1]);
    }
  }

  /** Nothing after a `completed` or `error` message reaches the page. */
  lemma FeedStopsAtTerminal(p: PageState, id: nat, events: seq<Payload>, j: nat)
    requires j < |events| && Terminal(events[j])
    ensures Feed(p, id, events) == Feed(p, id, events[..j + 1])
  {
    var upTo := events[..j + 1];
    var q := Feed(p, id, upTo[..j]);
    assert upTo[..j] == events[..j];
    assert !(Deliver(q, id, events[j]).stream.Some? && Deliver(q, id, events[j]).stream.value.id == id);
    FeedIgnored(Feed(p, id, upTo), id, events[j + 1..]);
    FeedAppend(p, id, upTo, events[j + 1..]);
    assert upTo + events[j + 1..] == events;
  }
}

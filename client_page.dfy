/** The page's handlers as the script runs them: one object holds the script's
    variables and the parts of the document the handlers change, and each handler
    updates them in place, statement by statement. `View` reads the object as a
    `Client.PageState`, and every handler is proved to leave the object in the
    state the corresponding `Client` function describes, so the facts proved about
    those functions hold of the page. */
module ClientPage {
  import opened Wrappers
  import opened Events
  import opened ClientFiles
  import opened Client

  /** The loop of the `processing` branch: one grey indicator for each chunk,
      counting up while the index is below the announced total. An absent total
      compares false, so no indicator is made. */
  method BuildIndicators(total: Option<int>) returns (ind: seq<Colour>)
    ensures |ind| == if total.Some? && total.value > 0 then total.value else 0
    ensures forall j :: 0 <= j < |ind| ==> ind[j] == Grey
    ensures ind == InitialIndicators(total)
  {
    ind := [];
    var i := 0;
    while total.Some? && i < total.value
      invariant i == |ind|
      invariant forall j :: 0 <= j < |ind| ==> ind[j] == Grey
      invariant total.Some? && total.value > 0 ==> i <= total.value
      invariant total.None? || total.value <= 0 ==> i == 0
      decreases if total.Some? then total.value - i else 0
    {
      ind := ind + [Grey];
      i := i + 1;
    }
  }

  class Page {
    var selected: Option<AudioFile>
    var aborted: bool
    var stream: Option<Connection>
    var open: set<nat>
    var nextId: nat
    var partial: map<Option<int>, Option<string>>
    /** The elements the handlers write, held as one value. */
    var doc: Document

    /** The object read as a page state. */
    function View(): PageState
      reads this
    {
      PageState(selected, aborted, stream, open, nextId, partial, doc)
    }

    /** The page as loaded. */
    constructor ()
      ensures View() == Initial
    {
      selected, aborted, stream, open, nextId, partial := None, false, None, {}, 0, map[];
      doc := Initial.doc;
    }

    method ShowError(message: string)
      modifies this
      ensures View() == Client.ShowError(old(View()), message)
    {
      doc := doc.(errorText := message);
      doc := doc.(errorShown := true);
    }

    method AddLogMessage(text: string, severity: Severity)
      modifies this
      ensures View() == AddLog(old(View()), text, severity)
    {
      if doc.details.Some? {
        var d := doc.details.value;
        doc := doc.(details := Some(d.(log := d.log + [LogEntry(text, severity)])));
      }
    }

    method CloseStream()
      modifies this
      ensures View() == Client.CloseStream(old(View()))
    {
      if stream.Some? {
        open := open - {stream.value.id};
        stream := None;
      }
    }

    /** Choosing a file: the type test, then the size test, then the file panel and,
        for a long file, the advisory replacing the old one. */
    method HandleFiles(f: AudioFile)
      modifies this
      ensures View() == Client.HandleFiles(old(View()), f)
    {
      if !TypeAccepted(f) {
        ShowError(UnsupportedTypeMessage);
        return;
      }
      if f.size > SizeLimit {
        ShowError(TooLargeMessage);
        return;
      }
      selected := Some(f);
      doc := doc.(fileNameText := f.name, fileSizeText := FormatFileSize(f.size));
      doc := doc.(fileInfoShown := true, errorShown := false);
      var advisory := AdvisoryFor(f);
      if advisory.Some? {
        if doc.warnings != [] {
          doc := doc.(warnings := doc.warnings[1..]);
        }
        doc := doc.(warnings := doc.warnings + [advisory.value]);
      }
    }

    /** Starting a transcription: the session is reset, the progress panel shown and
        a fresh details area with an empty log is made. */
    method TranscribeAudio()
      modifies this
      ensures View() == Client.TranscribeAudio(old(View()))
    {
      if selected.None? {
        return;
      }
      aborted, partial := false, map[];
      doc := doc.(fileInfoShown := false, progressShown := true);
      doc := doc.(details := Some(Details(None, [])));
      doc := doc.(progressText := UploadingText, progressWidth := 5);
      AddLogMessage(StartLog, Info);
      assert [] + [LogEntry(StartLog, Info)] == [LogEntry(StartLog, Info)];
    }

    /** Opening the stream for a stored file, after closing the previous one. */
    method StartStream(filename: string)
      modifies this
      ensures View() == Client.StartStream(old(View()), filename)
    {
      CloseStream();
      doc := doc.(cancelButton := true);
      open := open + {nextId};
      stream := Some(Connection(nextId, "/transcribe/" + filename));
      nextId := nextId + 1;
    }

    method OnUploadReply(reply: UploadReply)
      modifies this
      ensures View() == Client.OnUploadReply(old(View()), reply)
    {
      match reply {
        case Unreadable =>
          doc := doc.(progressShown := false);
          ShowError(ConnectionMessage);
        case Reply(success, filename, error) =>
          if success {
            StartStream(filename);
          } else {
            ShowError(if error.None? || error.value == "" then UploadFailedMessage else error.value);
            doc := doc.(progressShown := false);
          }
      }
    }

    /** Colours one chunk's indicator, when the chunks panel exists. */
    method UpdateChunkIndicator(k: Option<int>, c: Colour)
      modifies this
      ensures View() == MarkChunk(old(View()), k, c)
    {
      match doc.details {
        case Some(Details(Some(panel), log)) =>
          doc := doc.(details := Some(Details(Some(panel.(indicators := MarkIndicator(panel.indicators, k, c))), log)));
        case _ =>
      }
    }

    /** The `processing` branch's panel: made once, and only inside a details area. */
    method CreateChunksPanel(total: Option<int>)
      modifies this
      ensures View() == CreateChunks(old(View()), total)
    {
      if doc.details.Some? && doc.details.value.chunks.None? {
        var ind := BuildIndicators(total);
        doc := doc.(details := Some(Details(Some(ChunksPanel(CounterText(Some(0), total), ind)), doc.details.value.log)));
      }
    }

    method UpdateChunkCounter(current: Option<int>, total: Option<int>)
      modifies this
      ensures View() == UpdateCounter(old(View()), current, total)
    {
      if doc.details.Some? && doc.details.value.chunks.Some? {
        var panel := doc.details.value.chunks.value;
        doc := doc.(details := Some(Details(Some(panel.(counter := CounterText(current, total))), doc.details.value.log)));
      }
    }

    /** The reducer: the bar first, then the branch for the status. */
    method UpdateUI(e: Payload)
      modifies this
      ensures View() == Client.UpdateUI(old(View()), e)
    {
      if e.progress.Some? && e.progress.value != 0 {
        doc := doc.(progressWidth := e.progress.value);
      }
      match Kind(e.status) {
        case Stage => ReportStage(e, Stage);
        case Processing => ReportStage(e, Processing);
        case Transcribing => ReportStage(e, Transcribing);
        case PartialText => ReportChunk(e, PartialText);
        case ChunkError => ReportChunk(e, ChunkError);
        case RetrySuccess => ReportChunk(e, RetrySuccess);
        case Completed => ReportCompleted(e);
        case Failed => ReportFailed(e);
        case Other =>
      }
    }

    /** The stage branches: the message is shown and logged; `processing` also makes
        the chunks panel and `transcribing` updates its counter. */
    method ReportStage(e: Payload, k: StatusKind)
      requires k in {Stage, Processing, Transcribing}
      modifies this
      ensures View() == Branch(old(View()), e, k)
    {
      doc := doc.(progressText := TextOf(e.message));
      AddLogMessage(Show(e.message), Info);
      if k == Processing {
        CreateChunksPanel(e.totalChunks);
      } else if k == Transcribing {
        UpdateChunkCounter(e.currentChunk, e.totalChunks);
      }
    }

    /** The per-chunk branches: a partial text is recorded and its indicator marked. */
    method ReportChunk(e: Payload, k: StatusKind)
      requires k in {PartialText, ChunkError, RetrySuccess}
      modifies this
      ensures View() == Branch(old(View()), e, k)
    {
      if k == PartialText {
        partial := partial[e.chunkNumber := e.partialText];
        UpdateChunkIndicator(e.chunkNumber, Green);
        if e.partialText.Some? {
          AddLogMessage(PartialLog(e.chunkNumber, e.partialText.value), Info);
        }
      } else if k == ChunkError {
        UpdateChunkIndicator(e.currentChunk, Red);
        AddLogMessage(Show(e.message), Failure);
      } else {
        partial := partial[e.chunkNumber := e.partialText];
        UpdateChunkIndicator(e.chunkNumber, Yellow);
        AddLogMessage(RetryLog(e.chunkNumber), Info);
      }
    }

    /** The `completed` branch: the transcript is shown in the results panel. */
    method ReportCompleted(e: Payload)
      modifies this
      ensures View() == Branch(old(View()), e, Completed)
    {
      doc := doc.(progressText := CompletedText);
      AddLogMessage(CompletedLog, Success);
      doc := doc.(transcript := TextOf(e.fullText), progressShown := false, resultsShown := true);
    }

    /** The `error` branch: the message is shown in the error panel. */
    method ReportFailed(e: Payload)
      modifies this
      ensures View() == Branch(old(View()), e, Failed)
    {
      doc := doc.(progressText := FailedText);
      AddLogMessage(Show(e.message), Failure);
      ShowError(TextOf(e.message));
      doc := doc.(progressShown := false);
    }

    /** A message arriving on stream `id`; one on a closed stream is not delivered. */
    method OnMessage(id: nat, e: Payload)
      modifies this
      ensures View() == Deliver(old(View()), id, e)
    {
      if stream.None? || stream.value.id != id {
        return;
      }
      UpdateUI(e);
      if e.status == "completed" || e.status == "error" {
        CloseStream();
        doc := doc.(cancelButton := false);
      }
    }

    method OnStreamError(id: nat)
      modifies this
      ensures View() == Client.OnStreamError(old(View()), id)
    {
      if stream.None? || stream.value.id != id {
        return;
      }
      CloseStream();
      AddLogMessage(StreamLostLog, Failure);
      doc := doc.(cancelButton := false);
    }

    method Cancel()
      modifies this
      ensures View() == Client.Cancel(old(View()))
    {
      if !doc.cancelButton {
        return;
      }
      CloseStream();
      aborted := true;
      doc := doc.(progressText := CancelledText);
      doc := doc.(backButtons := doc.backButtons + 1, cancelButton := false);
    }

    method ResetUpload()
      modifies this
      ensures View() == Client.ResetUpload(old(View()))
    {
      selected := None;
      doc := doc.(fileInfoShown := false, progressShown := false, resultsShown := false, errorShown := false);
      doc := doc.(progressWidth := 0);
      CloseStream();
      if doc.warnings != [] {
        doc := doc.(warnings := doc.warnings[1..]);
      }
      doc := doc.(details := None, cancelButton := false);
    }
  }
}

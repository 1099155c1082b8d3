/** The progress messages the transcription stream carries from the server to the
    page. Each message is one JSON object; a key the sender did not write is `None`
    here, which is what the page reads as `undefined`. */
module Events {
  import opened Wrappers

  datatype Payload = Payload(
    status: string,
    message: Option<string>,
    progress: Option<int>,
    totalChunks: Option<int>,
    currentChunk: Option<int>,
    chunkNumber: Option<int>,
    partialText: Option<string>,
    fullText: Option<string>)

  /** A message carrying only a status, a human-readable message and a progress value. */
  function Notice(status: string, message: string, progress: int): Payload {
    Payload(status, Some(message), Some(progress), None, None, None, None, None)
  }

  /** The two statuses after which the page closes the stream. */
  predicate Terminal(p: Payload) {
    p.status == "completed" || p.status == "error"
  }
}

/** Facts about the page and the server together: what the page stages against
    what the server stores, and what the page makes of the server's stream. */
module Interplay {
  import opened Wrappers
  import opened Strings
  import opened Events
  import opened Upload
  import opened Stream
  import opened StreamFacts
  import opened ClientFiles
  import opened Client
  import opened ClientFacts

  lemma LowerDot(c: char)
    ensures LowerChar(c) == '.' <==> c == '.'
  {
  }

  lemma EndingsAreDotted(e: string)
    requires e in NameEndings
    ensures |e| > 0 && e[0] == '.' && e == "." + e[1..] && e[1..] in AllowedExtensions && '.' !in e[1..]
  {
    assert ".wav"[1..] == "wav" && ".mp3"[1..] == "mp3" && ".ogg"[1..] == "ogg";
    assert ".flac"[1..] == "flac" && ".m4a"[1..] == "m4a";
  }

  lemma ExtensionsAreEndings(ext: string)
    requires ext in AllowedExtensions
    ensures "." + ext in NameEndings
  {
    assert "." + "wav" == ".wav" && "." + "mp3" == ".mp3" && "." + "ogg" == ".ogg";
    assert "." + "flac" == ".flac" && "." + "m4a" == ".m4a";
  }

  /** Lower-casing neither adds nor removes dots. */
  lemma LowerKeepsDots(s: string)
    ensures '.' in s <==> '.' in Lower(s)
  {
    if '.' in s {
      var j :| 0 <= j < |s| && s[j] == '.';
      assert Lower(s)[j] == '.';
    }
    if '.' in Lower(s) {
      var j :| 0 <= j < |s| && Lower(s)[j] == '.';
      LowerDot(s[j]);
    }
  }

  /** The lower-cased name ends with '.' and `ext` exactly when the character before
      the last `|ext|` ones is '.' and those lower-case to `ext`. */
  lemma SuffixAfterDot(name: string, ext: string)
    requires |ext| < |name|
    ensures var i := |name| - |ext| - 1;
            EndsWith(Lower(name), "." + ext) <==> name[i] == '.' && Lower(name[i + 1..]) == ext
  {
    var i := |name| - |ext| - 1;
    LowerSlice(name, i, |name|);
    LowerSlice(name, i + 1, |name|);
    assert Lower(name[i..]) == [LowerChar(name[i])] + Lower(name[i + 1..]);
    LowerDot(name[i]);
    if EndsWith(Lower(name), "." + ext) {
      assert Lower(name)[i..] == "." + ext;
      assert ("." + ext)[1..] == ext;
    }
  }

  /** A name the page's test accepts passes the server's. */
  lemma NameMatchIsAllowed(name: string)
    requires NameMatches(name)
    ensures AllowedFile(name)
  {
    var e :| e in NameEndings && EndsWith(Lower(name), e);
    EndingsAreDotted(e);
    var ext := e[1..];
    var i := |name| - |e|;
    SuffixAfterDot(name, ext);
    LowerKeepsDots(name[i + 1..]);
    assert LastDotBefore(name, i);
  }

  /** A name the server's test accepts passes the page's. */
  lemma AllowedIsNameMatch(name: string)
    requires AllowedFile(name)
    ensures NameMatches(name)
  {
    var i :| LastDotBefore(name, i) && AllowedExtension(name[i + 1..]);
    var ext := Lower(name[i + 1..]);
    SuffixAfterDot(name, ext);
    ExtensionsAreEndings(ext);
  }

  /** The page's name test and the server's extension test accept the same names. */
  lemma NameChecksAgree(name: string)
    ensures NameMatches(name) <==> AllowedFile(name)
  {
    if NameMatches(name) {
      NameMatchIsAllowed(name);
    }
    if AllowedFile(name) {
      AllowedIsNameMatch(name);
    }
  }

  /** The request the page sends for a file: the file plus the form's framing. */
  function Request(f: AudioFile, overhead: nat): UploadRequest {
    UploadRequest(f.size + overhead, Some(f.name))
  }

  /** What the page reads from each server reply; the framework's 413 page is not JSON. */
  function ReplyOf(r: UploadResponse): UploadReply {
    match r
    case Saved(filename) => Reply(true, filename, None)
    case Rejected(error) => Reply(false, "", Some(error))
    case TooLarge => Unreadable
  }

  /** A file the page staged by its name is stored by the server when the body fits. */
  lemma ServerStoresWhatTheNameAdmits(f: AudioFile, overhead: nat, secure: string -> string)
    requires NameMatches(f.name) && f.size + overhead <= MaxContentLength
    ensures UploadFile(Request(f, overhead), secure) == Saved(secure(f.name))
  {
    NameChecksAgree(f.name);
  }

  /** A file the page staged only for its MIME type is refused by the server. */
  lemma ServerRefusesWhatOnlyTheTypeAdmits(f: AudioFile, overhead: nat, secure: string -> string)
    requires StagingError(f).None? && !NameMatches(f.name) && f.size + overhead <= MaxContentLength
    ensures UploadFile(Request(f, overhead), secure) ==
            Rejected(if f.name == "" then NoSelectionMessage else NotAllowedMessage)
  {
    NameChecksAgree(f.name);
  }

  /** For example a WAV recording saved without an extension. */
  lemma ExtensionlessWavRefused(p: PageState, secure: string -> string)
    ensures StagingError(AudioFile("nota", 1000, "audio/wav")).None?
    ensures OnUploadReply(p, ReplyOf(UploadFile(Request(AudioFile("nota", 1000, "audio/wav"), 200), secure))) ==
            p.(doc := p.doc.(errorText := NotAllowedMessage, errorShown := true, progressShown := false))
  {
    var f := AudioFile("nota", 1000, "audio/wav");
    assert '.' !in f.name;
    assert !NameMatches(f.name) by {
      forall e | e in NameEndings ensures !EndsWith(Lower(f.name), e) {
        assert |e| == 4 ==> Lower(f.name)[0] == 'n';
      }
    }
    ServerRefusesWhatOnlyTheTypeAdmits(f, 200, secure);
  }

  /** The page's cap and the server's are the same number, but the server counts
      the whole request: a file at the cap is staged, then answered with the 413
      page, which the page reports as a connection error. */
  lemma CapFileRefusedAsConnectionError(p: PageState, f: AudioFile, overhead: nat, secure: string -> string)
    requires TypeAccepted(f) && f.size == SizeLimit && overhead > 0
    ensures StagingError(f).None?
    ensures UploadFile(Request(f, overhead), secure) == TooLarge
    ensures OnUploadReply(p, ReplyOf(UploadFile(Request(f, overhead), secure))) ==
            p.(doc := p.doc.(progressShown := false, errorText := ConnectionMessage, errorShown := true))
  {
  }

  /** The server's `chunk_error` message has no `currentChunk`, so the page's
      indicator update for it changes nothing. */
  lemma ServerChunkErrorLeavesIndicators(p: PageState, chunk: nat, progress: int)
    ensures ChunkErrorEvent(chunk, progress).currentChunk.None?
    ensures Indicators(UpdateUI(p, ChunkErrorEvent(chunk, progress))) == Indicators(p)
  {
    var e := ChunkErrorEvent(chunk, progress);
    assert Kind(e.status) == ChunkError;
    ChunkErrorMarks(p, e);
    if Indicators(p).Some? {
      var ind := Indicators(p).value;
      assert MarkIndicator(ind, None, Red) == ind;
    }
  }

  /** The loop's messages are a prefix of those of any longer run. */
  lemma {:induction false} TranscribeEventsPrefix(outs: seq<ChunkOutcome>, k: nat, total: nat)
    requires k <= |outs| <= total
    ensures Transcribe(outs[..k], total).events <= Transcribe(outs, total).events
    decreases |outs|
  {
    if k < |outs| {
      var front := outs[..|outs| - 1];
      TranscribeEventsPrefix(front, k, total);
      assert front[..k] == outs[..k];
    } else {
      assert outs[..k] == outs;
    }
  }

  /** Chunks that were recognised or not understood send no terminal message. */
  lemma {:induction false} QuietChunks(outs: seq<ChunkOutcome>, total: nat)
    requires |outs| <= total
    requires forall k :: 0 <= k < |outs| ==> outs[k].Text? || outs[k].Unintelligible?
    ensures Transcribe(outs, total).crash.None?
    ensures forall k :: 0 <= k < |Transcribe(outs, total).events| ==> !Terminal(Transcribe(outs, total).events[k])
    decreases |outs|
  {
    if outs != [] {
      var i := |outs| - 1;
      QuietChunks(outs[..i], total);
      var prev := Transcribe(outs[..i], total).events;
      var block := ChunkEvents(i, total, outs[i]);
      assert forall k :: 0 <= k < |block| ==> !Terminal(block[k]);
      assert forall k :: 0 <= k < |prev + block| ==> (prev + block)[k] == if k < |prev| then prev[k] else block[k - |prev|];
    }
  }

  lemma OpeningQuiet(wav: bool, few: bool, total: nat)
    ensures forall k :: 0 <= k < |Opening(wav, few, total)| ==> !Terminal(Opening(wav, few, total)[k])
  {
    var op := Opening(wav, few, total);
    var statuses := seq(|op|, k requires 0 <= k < |op| => op[k].status);
    assert statuses == (if wav then [] else ["converting", "converted"]) + ["loading", "splitting"]
                       + (if few then ["splitting_time"] else []) + ["processing"];
    assert forall k :: 0 <= k < |op| ==> op[k].status == statuses[k];
  }

  /** Messages that are not terminal keep the page listening to the stream. */
  lemma {:induction false} FeedKeepsStream(p: PageState, id: nat, events: seq<Payload>)
    requires forall k :: 0 <= k < |events| ==> !Terminal(events[k])
    ensures Feed(p, id, events).stream == p.stream
    decreases |events|
  {
    if events != [] {
      FeedKeepsStream(p, id, events[..|events| - 1]);
      OtherMessageKeepsStream(Feed(p, id, events[..|events| - 1]), id, events[|events| - 1]);
    }
  }

  /** Up to chunk `j`, the loop's messages are the earlier chunks' messages and
      chunk `j`'s messages, provided no earlier chunk raised. */
  lemma RunPrefix(outs: seq<ChunkOutcome>, j: nat)
    requires j < |outs| && Transcribe(outs[..j], |outs|).crash.None?
    ensures Transcribe(outs[..j], |outs|).events + ChunkEvents(j, |outs|, outs[j]) <= Transcribe(outs, |outs|).events
  {
    TranscribeStep(outs, j, |outs|);
    TranscribeEventsPrefix(outs, j + 1, |outs|);
  }

  /** The same, for the whole stream. */
  lemma SchedulePrefix(wav: bool, failure: AudioFailure, few: bool, outs: seq<ChunkOutcome>, j: nat)
    requires !OpeningFails(wav, failure)
    requires j < |outs| && Transcribe(outs[..j], |outs|).crash.None?
    ensures Opening(wav, few, |outs|) + Transcribe(outs[..j], |outs|).events + ChunkEvents(j, |outs|, outs[j])
            <= Schedule(wav, failure, few, outs)
  {
    var run := Transcribe(outs, |outs|);
    ScheduleShape(wav, failure, few, outs);
    RunPrefix(outs, j);
    PrefixExtend(Opening(wav, few, |outs|), Transcribe(outs[..j], |outs|).events, ChunkEvents(j, |outs|, outs[j]),
                 run.events, [Closing(run)]);
  }

  lemma PrefixExtend<T>(a: seq<T>, x1: seq<T>, x2: seq<T>, y: seq<T>, z: seq<T>)
    requires x1 + x2 <= y
    ensures a + x1 + x2 <= a + y + z
  {
    assert a + x1 + x2 == a + (x1 + x2);
    assert (a + y + z)[..|a + (x1 + x2)|] == a + (x1 + x2);
  }

  /** Where the first API error of a run sits in the stream, and what follows it. */
  lemma ApiErrorPosition(wav: bool, failure: AudioFailure, few: bool, outs: seq<ChunkOutcome>, j: nat)
    requires !OpeningFails(wav, failure)
    requires j < |outs| && outs[j].ApiError?
    requires forall k :: 0 <= k < j ==> outs[k].Text? || outs[k].Unintelligible?
    ensures var events := Schedule(wav, failure, few, outs);
            var m := ApiErrorIndex(wav, few, outs, j);
            m + 1 < |events| &&
            events[m] == ApiErrorEvent(j + 1, outs[j].detail, ChunkProgress(j, |outs|)) &&
            (outs[j].retry.Some? ==> events[m + 1].status == "retry_success") &&
            FirstTerminalIsError(events, m)
  {
    var n := |outs|;
    var op := Opening(wav, few, n);
    var prev := Transcribe(outs[..j], n);
    assert forall k :: 0 <= k < j ==> outs[..j][k] == outs[k];
    QuietChunks(outs[..j], n);
    OpeningQuiet(wav, few, n);
    SchedulePrefix(wav, failure, few, outs, j);
    var block := ChunkEvents(j, n, outs[j]);
    var head := op + prev.events + block;
    var m := |op| + |prev.events| + 1;
    ApiErrorBlock(j, n, outs[j]);
    HeadFacts(op, prev.events, block);
    ApiErrorIsFailure(j + 1, outs[j].detail, ChunkProgress(j, n));
    PrefixTerminal(head, Schedule(wav, failure, few, outs), m);
  }

  /** A prefix whose message `m` is the first terminal one, an `error`, fixes the
      same of every sequence it begins. */
  lemma PrefixTerminal(head: seq<Payload>, events: seq<Payload>, m: nat)
    requires head <= events && m + 1 < |head|
    requires Kind(head[m].status) == Failed && forall k :: 0 <= k < m ==> !Terminal(head[k])
    ensures events[m] == head[m] && events[m + 1] == head[m + 1] && FirstTerminalIsError(events, m)
  {
    assert forall k :: 0 <= k < m ==> events[k] == head[k];
  }

  /** The three messages of a chunk whose recognition met an API error. */
  lemma ApiErrorBlock(j: nat, n: nat, o: ChunkOutcome)
    requires j < n && o.ApiError?
    ensures var block := ChunkEvents(j, n, o);
            |block| == 3 && !Terminal(block[0]) &&
            block[1] == ApiErrorEvent(j + 1, o.detail, ChunkProgress(j, n)) &&
            (o.retry.Some? ==> block[2].status == "retry_success")
  {
  }

  lemma HeadFacts(op: seq<Payload>, prev: seq<Payload>, block: seq<Payload>)
    requires |block| == 3 && !Terminal(block[0])
    requires forall k :: 0 <= k < |op| ==> !Terminal(op[k])
    requires forall k :: 0 <= k < |prev| ==> !Terminal(prev[k])
    ensures var head := op + prev + block;
            var m := |op| + |prev| + 1;
            head[m] == block[1] && head[m + 1] == block[2] &&
            forall k :: 0 <= k < m ==> !Terminal(head[k])
  {
    var head := op + prev + block;
    var m := |op| + |prev| + 1;
    forall k | 0 <= k < m ensures !Terminal(head[k]) {
      if k < |op| {
        assert head[k] == op[k];
      } else if k < |op| + |prev| {
        assert head[k] == prev[k - |op|];
      } else {
        assert head[k] == block[0];
      }
    }
  }

  /** The first API error ends the page's session: the page stops listening at that
      message, so the `retry_success` the server sends next is never shown, and the
      error panel shows the API error instead. */
  lemma ApiErrorEndsSession(wav: bool, failure: AudioFailure, few: bool, outs: seq<ChunkOutcome>, j: nat,
                            p: PageState, id: nat, events: seq<Payload>)
    requires !OpeningFails(wav, failure)
    requires j < |outs| && outs[j].ApiError?
    requires forall k :: 0 <= k < j ==> outs[k].Text? || outs[k].Unintelligible?
    requires p.stream.Some? && p.stream.value.id == id
    requires events == Schedule(wav, failure, few, outs)
    ensures var m := ApiErrorIndex(wav, few, outs, j);
            var r := Feed(p, id, events);
            m + 1 < |events| && StopsAt(p, id, events, m) && r.stream.None? && r.doc.errorShown &&
            r.doc.errorText == ApiErrorEvent(j + 1, outs[j].detail, ChunkProgress(j, |outs|)).message.value
  {
    ApiErrorPosition(wav, failure, few, outs, j);
    var e := ApiErrorEvent(j + 1, outs[j].detail, ChunkProgress(j, |outs|));
    ApiErrorIsFailure(j + 1, outs[j].detail, ChunkProgress(j, |outs|));
    SessionEndsAtMessage(p, id, events, ApiErrorIndex(wav, few, outs, j), e);
  }

  /** The position of chunk `j`'s API error message in the stream. */
  function ApiErrorIndex(wav: bool, few: bool, outs: seq<ChunkOutcome>, j: nat): nat
    requires j <= |outs|
  {
    |Opening(wav, few, |outs|)| + |Transcribe(outs[..j], |outs|).events| + 1
  }

  lemma SessionEndsAtMessage(p: PageState, id: nat, events: seq<Payload>, m: nat, e: Payload)
    requires FirstTerminalIsError(events, m) && events[m] == e && e.message.Some?
    requires p.stream.Some? && p.stream.value.id == id
    ensures m + 1 <= |events|
    ensures var r := Feed(p, id, events);
            StopsAt(p, id, events, m) && r.stream.None? && r.doc.errorShown && r.doc.errorText == e.message.value
  {
    SessionEndsAtError(p, id, events, m);
  }

  lemma ApiErrorIsFailure(chunk: nat, detail: string, progress: int)
    ensures var e := ApiErrorEvent(chunk, detail, progress);
            Kind(e.status) == Failed && e.message.Some? && TextOf(e.message) == e.message.value
  {
  }

  /** The messages after message `m` leave the page as message `m` left it. */
  predicate StopsAt(p: PageState, id: nat, events: seq<Payload>, m: nat)
    requires m < |events|
  {
    Feed(p, id, events) == Feed(p, id, events[..m + 1])
  }

  /** Message `m` is an `error` and no message before it is terminal. */
  predicate FirstTerminalIsError(events: seq<Payload>, m: nat) {
    m < |events| && Kind(events[m].status) == Failed && forall k :: 0 <= k < m ==> !Terminal(events[k])
  }

  /** A page listening to a stream whose first terminal message is an `error` stops
      there, with the stream closed and the message in the error panel. */
  lemma SessionEndsAtError(p: PageState, id: nat, events: seq<Payload>, m: nat)
    requires FirstTerminalIsError(events, m)
    requires p.stream.Some? && p.stream.value.id == id
    ensures var r := Feed(p, id, events);
            r == Feed(p, id, events[..m + 1]) && r.stream.None? && r.doc.errorShown && r.doc.errorText == TextOf(events[m].message)
  {
    var before := events[..m];
    FeedKeepsStream(p, id, before);
    FeedLast(p, id, events, m);
    ErrorShowsMessage(Feed(p, id, before), events[m]);
    KindTerminal(events[m]);
    FeedStopsAtTerminal(p, id, events, m);
  }

  lemma FeedLast(p: PageState, id: nat, events: seq<Payload>, m: nat)
    requires m < |events|
    ensures Feed(p, id, events[..m + 1]) == Deliver(Feed(p, id, events[..m]), id, events[m])
  {
    assert events[..m + 1][..m] == events[..m];
  }
}

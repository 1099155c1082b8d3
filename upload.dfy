/** The server's upload endpoint: the extension test and the ordered chain of
    checks that decides whether an uploaded file is kept. */
module Upload {
  import opened Wrappers
  import opened Strings

  /** The accepted extensions, compared in lower case. */
  const AllowedExtensions: set<string> := {"wav", "mp3", "ogg", "flac", "m4a"}

  /** The framework's limit on the size of a request body, in bytes. */
  const MaxContentLength: nat := 100 * 1024 * 1024

  const NoFileMessage := "No se ha enviado ningún archivo"
  const NoSelectionMessage := "No se ha seleccionado ningún archivo"
  const NotAllowedMessage := "Tipo de archivo no permitido"

  /** The name has a '.' and the text after its last '.', lower-cased, is an
      accepted extension; stated without `LastIndexOf`, some '.' with no '.' after
      it is followed by an accepted extension. */
  predicate AllowedFile(filename: string): (r: bool)
    ensures r <==> exists i :: LastDotBefore(filename, i) && AllowedExtension(filename[i + 1..])
  {
    LastDotCharacterization(filename);
    '.' in filename && AllowedExtension(LastPiece(filename, '.'))
  }

  /** `filename[i]` is a '.' and no '.' comes after it. */
  predicate LastDotBefore(filename: string, i: nat) {
    i < |filename| && filename[i] == '.' && '.' !in filename[i + 1..]
  }

  /** `ext`, lower-cased, is one of the accepted extensions. */
  predicate AllowedExtension(ext: string) {
    Lower(ext) in AllowedExtensions
  }

  lemma LastDotCharacterization(filename: string)
    ensures ('.' in filename && AllowedExtension(LastPiece(filename, '.'))) <==>
            exists i :: LastDotBefore(filename, i) && AllowedExtension(filename[i + 1..])
  {
    if '.' in filename && AllowedExtension(LastPiece(filename, '.')) {
      AllowedFileWitness(filename);
    } else {
      forall i | LastDotBefore(filename, i)
        ensures !AllowedExtension(filename[i + 1..])
      {
        LastDotExtension(filename, i);
      }
    }
  }

  /** The last '.' gives the witness. */
  lemma AllowedFileWitness(filename: string)
    requires '.' in filename && AllowedExtension(LastPiece(filename, '.'))
    ensures LastIndexOf(filename, '.').Some?
    ensures var i := LastIndexOf(filename, '.').value;
            LastDotBefore(filename, i) && AllowedExtension(filename[i + 1..])
  {
    var i := LastIndexOf(filename, '.').value;
    assert LastPiece(filename, '.') == filename[i + 1..];
  }

  /** A '.' with no '.' after it starts the extension the test reads. */
  lemma LastDotExtension(filename: string, i: nat)
    requires i < |filename| && filename[i] == '.' && '.' !in filename[i + 1..]
    ensures '.' in filename && LastPiece(filename, '.') == filename[i + 1..]
  {
    LastIndexOfUnique(filename, '.', i);
  }

  /** Worked cases: a bare extension passes, case does not matter, only the last
      '.' counts, and a name with no '.' fails even when it spells an extension. */
  lemma AllowedFileBareExtension()
    ensures AllowedFile(".wav")
  {
    LastIndexOfUnique(".wav", '.', 0);
    assert ".wav"[1..] == "wav";
    assert Lower("wav") == "wav";
  }

  lemma AllowedFileUpperCase()
    ensures AllowedFile("A.MP3")
  {
    LastIndexOfUnique("A.MP3", '.', 1);
    assert "A.MP3"[2..] == "MP3";
    assert Lower("MP3") == "mp3";
  }

  lemma AllowedFileLastDotOnly()
    ensures !AllowedFile("cancion.wav.txt")
  {
    LastIndexOfUnique("cancion.wav.txt", '.', 11);
    assert "cancion.wav.txt"[12..] == "txt";
    assert Lower("txt") == "txt";
  }

  lemma AllowedFileNoDot()
    ensures !AllowedFile("wav") && !AllowedFile("")
  {
    assert '.' !in "wav";
  }

  /** What reaches the handler: the declared body length and, when the form has a
      part named `file`, that part's file name. */
  datatype UploadRequest = UploadRequest(contentLength: nat, file: Option<string>)

  /** `Saved` is the success reply naming the stored file; `Rejected` the JSON error
      reply; `TooLarge` the framework's 413 page for an oversized body. */
  datatype UploadResponse = Saved(filename: string) | Rejected(error: string) | TooLarge

  /** The ordered checks of the upload handler. `secure` is the framework's file
      name sanitiser, left uninterpreted. */
  function UploadFile(req: UploadRequest, secure: string -> string): (r: UploadResponse)
    ensures r.TooLarge? <==> req.contentLength > MaxContentLength
    ensures r.Saved? <==> req.contentLength <= MaxContentLength && req.file.Some? && AllowedFile(req.file.value)
    ensures r.Saved? ==> r.filename == secure(req.file.value)
    ensures r.Rejected? ==> r.error in {NoFileMessage, NoSelectionMessage, NotAllowedMessage}
  {
    if req.contentLength > MaxContentLength then TooLarge
    else if req.file.None? then Rejected(NoFileMessage)
    else if req.file.value == "" then Rejected(NoSelectionMessage)
    else if AllowedFile(req.file.value) then Saved(secure(req.file.value))
    else Rejected(NotAllowedMessage)
  }

  /** Each error names the first check that failed, in the handler's order. */
  lemma UploadFileFirstFailure(req: UploadRequest, secure: string -> string)
    requires req.contentLength <= MaxContentLength
    ensures UploadFile(req, secure) == Rejected(NoFileMessage) <==> req.file.None?
    ensures UploadFile(req, secure) == Rejected(NoSelectionMessage) <==> req.file == Some("")
    ensures UploadFile(req, secure) == Rejected(NotAllowedMessage) <==>
            req.file.Some? && req.file.value != "" && !AllowedFile(req.file.value)
  {
  }
}

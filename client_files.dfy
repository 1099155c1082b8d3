/** The page's pure helpers about the chosen file: the type and size checks that
    decide whether it is staged, the duration estimate behind the long-file
    advisory, the human-readable size and the name offered for the downloaded
    transcript. */
module ClientFiles {
  import opened Wrappers
  import opened Strings

  /** What the page reads from a picked or dropped file. */
  datatype AudioFile = AudioFile(name: string, size: nat, mime: string)

  const AllowedTypes: seq<string> := ["audio/wav", "audio/mpeg", "audio/ogg", "audio/flac", "audio/mp4"]

  /** The endings the name test accepts, compared case-insensitively. */
  const NameEndings: seq<string> := [".wav", ".mp3", ".ogg", ".flac", ".m4a"]

  /** The page's size cap, in bytes. */
  const SizeLimit: nat := 100 * 1024 * 1024

  const UnsupportedTypeMessage := "Tipo de archivo no soportado. Por favor, sube un archivo de audio en formato WAV, MP3, OGG, FLAC o M4A."
  const TooLargeMessage := "El archivo es demasiado grande. El límite es de 100MB."

  /** The regular expression `\.(wav|mp3|ogg|flac|m4a)$` with the `i` flag: `$` is the
      end of the name and only ASCII letters fold. */
  predicate NameMatches(name: string): (r: bool)
    ensures r ==> 4 <= |name|
  {
    exists e :: e in NameEndings && EndsWith(Lower(name), e)
  }

  /** The type test: a listed MIME type, or a name with an audio ending. */
  predicate TypeAccepted(f: AudioFile) {
    f.mime in AllowedTypes || NameMatches(f.name)
  }

  /** The first failing check of the file picker, if any: the type test comes
      before the size test, and a file of exactly the cap passes. */
  function StagingError(f: AudioFile): (r: Option<string>)
    ensures r == None <==> TypeAccepted(f) && f.size <= SizeLimit
    ensures r == Some(UnsupportedTypeMessage) <==> !TypeAccepted(f)
    ensures r == Some(TooLargeMessage) <==> TypeAccepted(f) && f.size > SizeLimit
  {
    if !TypeAccepted(f) then Some(UnsupportedTypeMessage)
    else if f.size > SizeLimit then Some(TooLargeMessage)
    else None
  }

  /** The bit rate in kbps assumed for a MIME type; 192 for any other type. */
  function BitRate(mime: string): (kbps: nat)
    ensures kbps in {1411, 192, 160, 900}
    ensures mime !in AllowedTypes ==> kbps == 192
  {
    if mime == "audio/wav" then 1411
    else if mime == "audio/mpeg" then 192
    else if mime == "audio/ogg" then 160
    else if mime == "audio/flac" then 900
    else 192
  }

  /** The estimated duration in minutes: bytes over bytes per second (kbps * 125),
      over 60, in exact arithmetic. */
  function EstimateMinutes(size: nat, mime: string): (minutes: real)
    ensures minutes >= 0.0
    ensures minutes * (7500 * BitRate(mime)) as real == size as real
  {
    size as real / (BitRate(mime) * 125) as real / 60.0
  }

  function Floor(x: real): int {
    x.Floor
  }

  /** `Math.ceil`. */
  function Ceil(x: real): (n: int)
    ensures x <= n as real < x + 1.0
  {
    -((-x).Floor)
  }

  /** `Math.round`: halves go up. */
  function Round(x: real): (n: int)
    ensures x - 0.5 < n as real <= x + 0.5
  {
    (x + 0.5).Floor
  }

  /** The long-file advisory: the rounded duration and the processing bound. */
  datatype Advisory = Advisory(approxMinutes: int, processingMinutes: int)

  /** The advisory shown for a staged file, when its estimate exceeds five minutes;
      the processing bound is `ceil(estimate * 0.8)`. */
  function AdvisoryFor(f: AudioFile): (r: Option<Advisory>)
    ensures var est := EstimateMinutes(f.size, f.mime);
            r.Some? <==> est > 5.0
    ensures var est := EstimateMinutes(f.size, f.mime);
            r.Some? ==>
              est - 0.5 < r.value.approxMinutes as real <= est + 0.5 &&
              est * 0.8 <= r.value.processingMinutes as real < est * 0.8 + 1.0
  {
    var est := EstimateMinutes(f.size, f.mime);
    if est > 5.0 then Some(Advisory(Round(est), Ceil(est * 0.8))) else None
  }

  /** The advisory appears exactly when the file holds more than five minutes at
      the assumed bit rate, that is when it has more than 37 500 bytes per kbps. */
  lemma AdvisoryIff(f: AudioFile)
    ensures AdvisoryFor(f).Some? <==> f.size > 37500 * BitRate(f.mime)
  {
    var b := BitRate(f.mime);
    var est := EstimateMinutes(f.size, f.mime);
    assert est * (7500 * b) as real == f.size as real;
    if est > 5.0 {
      assert est * (7500 * b) as real > 5.0 * (7500 * b) as real;
    } else {
      assert est * (7500 * b) as real <= 5.0 * (7500 * b) as real;
    }
  }

  /** Both figures of an advisory are at least five minutes, and the processing
      bound never exceeds the rounded duration. */
  lemma AdvisoryBounds(f: AudioFile)
    requires AdvisoryFor(f).Some?
    ensures 5 <= AdvisoryFor(f).value.processingMinutes <= AdvisoryFor(f).value.approxMinutes
  {
    var est := EstimateMinutes(f.size, f.mime);
    var n := Round(est);
    assert est < n as real + 0.5;
    assert est * 0.8 <= n as real;
  }

  /** A typical case: ten MiB of MP3 is about seven minutes and may take up to six. */
  lemma AdvisoryExample()
    ensures AdvisoryFor(AudioFile("entrevista.mp3", 10 * 1024 * 1024, "audio/mpeg")) == Some(Advisory(7, 6))
  {
    var est := EstimateMinutes(10 * 1024 * 1024, "audio/mpeg");
    assert est == 10485760.0 / 1440000.0;
    assert 6.5 <= est < 7.5;
    assert 5.0 < est * 0.8 <= 6.0;
  }

  function Pow(b: nat, e: nat): (r: nat)
    ensures b > 0 ==> r > 0
  {
    if e == 0 then 1 else b * Pow(b, e - 1)
  }

  lemma {:induction false} PowMonotone(b: nat, i: nat, j: nat)
    requires b > 0 && i <= j
    ensures Pow(b, i) <= Pow(b, j)
    decreases j
  {
    if i < j {
      PowMonotone(b, i, j - 1);
      assert Pow(b, j) == b * Pow(b, j - 1);
    }
  }

  /** The unit index of a size: the number of times 1024 fits, so that
      `1024^i <= bytes < 1024^(i+1)`. */
  function UnitIndex(bytes: nat): (i: nat)
    requires bytes > 0
    ensures Pow(1024, i) <= bytes < Pow(1024, i + 1)
    decreases bytes
  {
    if bytes < 1024 then 0
    else
      var j := UnitIndex(bytes / 1024);
      assert Pow(1024, j + 1) == 1024 * Pow(1024, j);
      assert Pow(1024, j + 2) == 1024 * Pow(1024, j + 1);
      assert 1024 * (bytes / 1024) <= bytes < 1024 * (bytes / 1024) + 1024;
      j + 1
  }

  /** The unit index is the largest `i` with `1024^i <= bytes`. */
  lemma UnitIndexLargest(bytes: nat, i: nat)
    requires bytes > 0 && Pow(1024, i) <= bytes
    ensures i <= UnitIndex(bytes)
  {
    if i > UnitIndex(bytes) {
      PowMonotone(1024, UnitIndex(bytes) + 1, i);
    }
  }

  /** Any size the page accepts is rendered in bytes, KB or MB. */
  lemma AcceptedSizeUnit(bytes: nat)
    requires 0 < bytes <= SizeLimit
    ensures UnitIndex(bytes) <= 2
  {
    assert Pow(1024, 3) == 1073741824;
    if UnitIndex(bytes) >= 3 {
      PowMonotone(1024, 3, UnitIndex(bytes));
    }
  }

  const Units: seq<string> := ["Bytes", "KB", "MB", "GB"]

  /** The unit name; an index past the table reads as `undefined`. */
  function Unit(i: nat): string {
    if i < |Units| then Units[i] else "undefined"
  }

  /** `bytes / 1024^i` in hundredths, rounded to the nearest with ties going up, as
      `toFixed(2)` rounds an exactly representable tie such as 1.125. */
  function Hundredths(bytes: nat, i: nat): (h: nat)
    ensures var d := Pow(1024, i);
            2 * h * d <= 200 * bytes + d < 2 * h * d + 2 * d
  {
    var d := Pow(1024, i);
    var x := 200 * bytes + d;
    var h := x / (2 * d);
    assert h * (2 * d) + x % (2 * d) == x;
    assert 2 * h * d == h * (2 * d);
    h
  }

  /** Every character is a decimal digit. */
  predicate AllDigits(s: string) {
    forall i :: 0 <= i < |s| ==> '0' <= s[i] <= '9'
  }

  /** Reads `digits`, `digits.d` or `digits.dd` back as a number of hundredths, and
      anything else as `None`: the reference reading of the shown number. */
  function ReadHundredths(s: string): Option<nat> {
    if |s| >= 2 && s[|s| - 2] == '.' then ReadParts(s[..|s| - 2], s[|s| - 1..])
    else if |s| >= 3 && s[|s| - 3] == '.' then ReadParts(s[..|s| - 3], s[|s| - 2..])
    else if s != [] && AllDigits(s) then Some(DigitsValue(s) * 100)
    else None
  }

  /** The digits before the '.' and the one or two after it, as hundredths. */
  function ReadParts(whole: string, frac: string): Option<nat> {
    if whole != [] && AllDigits(whole) && AllDigits(frac) then
      Some(DigitsValue(whole) * 100 + (if |frac| == 1 then 10 * DigitsValue(frac) else DigitsValue(frac)))
    else None
  }

  /** A number of hundredths as the shortest decimal: it reads back as the number, has
      no fraction exactly when the number is whole, and never ends its fraction with 0. */
  function DecimalHundredths(h: nat): (r: string)
    ensures ReadHundredths(r) == Some(h)
    ensures '.' in r <==> h % 100 != 0
    ensures '.' in r ==> r[|r| - 1] != '0'
  {
    var whole := NatToString(h / 100);
    var cents := h % 100;
    if cents == 0 then
      WholeReadBack(h);
      whole
    else if cents % 10 == 0 then
      OneDecimalReadBack(h);
      whole + ['.', DigitChar(cents / 10)]
    else
      TwoDecimalsReadBack(h);
      whole + ['.', DigitChar(cents / 10), DigitChar(cents % 10)]
  }

  lemma {:induction false} WholeReadBack(h: nat)
    requires h % 100 == 0
    ensures '.' !in NatToString(h / 100)
    ensures ReadHundredths(NatToString(h / 100)) == Some(h)
  {
    var w := NatToString(h / 100);
    DecimalDigits(h / 100);
    DigitsHaveNoDot(w);
    ReadWhole(w);
  }

  lemma {:induction false} OneDecimalReadBack(h: nat)
    requires h % 100 != 0 && h % 100 % 10 == 0
    ensures var r := NatToString(h / 100) + ['.', DigitChar(h % 100 / 10)];
            '.' in r && r[|r| - 1] != '0' && ReadHundredths(r) == Some(h)
  {
    var w := NatToString(h / 100);
    var d := h % 100 / 10;
    DecimalDigits(h / 100);
    DigitCharValue(d);
    ReadOneDecimal(w, DigitChar(d));
    assert h % 100 == 10 * d;
  }

  lemma {:induction false} TwoDecimalsReadBack(h: nat)
    requires h % 100 % 10 != 0
    ensures var r := NatToString(h / 100) + ['.', DigitChar(h % 100 / 10), DigitChar(h % 100 % 10)];
            '.' in r && r[|r| - 1] != '0' && ReadHundredths(r) == Some(h)
  {
    var w := NatToString(h / 100);
    var a, b := h % 100 / 10, h % 100 % 10;
    DecimalDigits(h / 100);
    DigitCharValue(a);
    DigitCharValue(b);
    ReadTwoDecimals(w, DigitChar(a), DigitChar(b));
    assert h % 100 == 10 * a + b;
  }

  /** What `NatToStringRoundTrip` gives, in the terms of `ReadHundredths`. */
  lemma {:induction false} DecimalDigits(n: nat)
    ensures NatToString(n) != [] && AllDigits(NatToString(n)) && DigitsValue(NatToString(n)) == n
  {
    NatToStringRoundTrip(n);
    NatToStringNonEmpty(n);
  }

  lemma {:induction false} ReadWhole(w: string)
    requires w != [] && AllDigits(w)
    ensures ReadHundredths(w) == Some(DigitsValue(w) * 100)
  {
    if |w| >= 2 {
      assert '0' <= w[|w| - 2];
    }
    if |w| >= 3 {
      assert '0' <= w[|w| - 3];
    }
  }

  lemma {:induction false} ReadOneDecimal(w: string, a: char)
    requires w != [] && AllDigits(w) && '0' <= a <= '9'
    ensures var r := w + ['.', a];
            '.' in r && r[|r| - 1] == a && ReadHundredths(r) == Some(DigitsValue(w) * 100 + 10 * DigitValue(a))
  {
    var r := w + ['.', a];
    assert r[|w|] == '.';
    assert r[..|r| - 2] == w;
    assert r[|r| - 1..] == [a];
    assert DigitsValue([a]) == DigitValue(a) by { assert [a][..0] == []; }
  }

  lemma {:induction false} ReadTwoDecimals(w: string, a: char, b: char)
    requires w != [] && AllDigits(w) && '0' <= a <= '9' && '0' <= b <= '9'
    ensures var r := w + ['.', a, b];
            '.' in r && r[|r| - 1] == b &&
            ReadHundredths(r) == Some(DigitsValue(w) * 100 + 10 * DigitValue(a) + DigitValue(b))
  {
    var r := w + ['.', a, b];
    assert r[|w|] == '.';
    assert r[|r| - 2] == a;
    assert r[..|r| - 3] == w;
    assert r[|r| - 2..] == [a, b] by {
      assert r[|r| - 1] == b;
    }
    assert DigitsValue([a]) == DigitValue(a) by { assert [a][..0] == []; }
    assert DigitsValue([a, b]) == 10 * DigitValue(a) + DigitValue(b) by { assert [a, b][..1] == [a]; }
  }

  lemma {:induction false} DigitsHaveNoDot(s: string)
    requires AllDigits(s)
    ensures '.' !in s
  {
    forall k | 0 <= k < |s|
      ensures s[k] != '.'
    {
    }
  }

  /** The size as shown next to the file name: the value in the unit, to two
      decimals with trailing zeros dropped, then the unit. */
  function FormatFileSize(bytes: nat): (r: string)
    ensures bytes == 0 ==> r == "0 Bytes"
    ensures bytes > 0 ==> EndsWith(r, " " + Unit(UnitIndex(bytes)))
  {
    if bytes == 0 then "0 Bytes"
    else
      var i := UnitIndex(bytes);
      var number := DecimalHundredths(Hundredths(bytes, i));
      NumberThenUnit(number, Unit(i), Hundredths(bytes, i));
      number + " " + Unit(i)
  }

  /** Before the space and the unit, the size shows its value in that unit in
      hundredths, as `Hundredths` rounds it. */
  lemma FormatFileSizeShows(bytes: nat)
    requires bytes > 0
    ensures var r, unit := FormatFileSize(bytes), Unit(UnitIndex(bytes));
            |unit| < |r| && ReadHundredths(r[..|r| - |unit| - 1]) == Some(Hundredths(bytes, UnitIndex(bytes)))
  {
    var i := UnitIndex(bytes);
    var number := DecimalHundredths(Hundredths(bytes, i));
    NumberThenUnit(number, Unit(i), Hundredths(bytes, i));
  }

  /** A number followed by a space and a unit still shows the number before the unit. */
  lemma NumberThenUnit(number: string, unit: string, h: nat)
    requires ReadHundredths(number) == Some(h)
    ensures var r := number + " " + unit;
            EndsWith(r, " " + unit) && ReadHundredths(r[..|r| - |unit| - 1]) == Some(h)
  {
    var r := number + " " + unit;
    assert r[..|r| - |unit| - 1] == number;
    assert r[|r| - |unit| - 1..] == " " + unit;
  }

  lemma FormatFileSizeZero()
    ensures FormatFileSize(0) == "0 Bytes"
  {
  }

  lemma FormatFileSizeKilobytes()
    ensures FormatFileSize(1536) == "1.5 KB"
  {
    OneAndAHalfKilobytes();
    OneAndAHalf();
  }

  lemma OneAndAHalfKilobytes()
    ensures UnitIndex(1536) == 1 && Hundredths(1536, 1) == 150
  {
    assert UnitIndex(1536) == 1 by { assert UnitIndex(1536 / 1024) == 0; }
    assert Pow(1024, 1) == 1024;
  }

  lemma OneAndAHalf()
    ensures DecimalHundredths(150) == "1.5"
  {
    assert 150 / 100 == 1 && 150 % 100 == 50 && 50 / 10 == 5;
    assert NatToString(1) == "1" && DigitChar(5) == '5';
    assert DecimalHundredths(150) == NatToString(1) + ['.', DigitChar(5)];
  }

  lemma FormatFileSizeMegabyte()
    ensures FormatFileSize(1048576) == "1 MB"
  {
    assert UnitIndex(1048576) == 2 by { assert UnitIndex(1024) == 1; }
    assert Hundredths(1048576, 2) == 100 by { assert Pow(1024, 2) == 1048576; }
    assert DecimalHundredths(100) == "1" by { assert NatToString(1) == "1"; }
  }

  const DefaultDownloadName := "transcripcion.txt"
  const DownloadSuffix := "-transcripcion.txt"

  /** The name offered for the transcript: the chosen file's name split on '.',
      without its last piece, joined again, then the suffix. */
  function DownloadName(selected: Option<AudioFile>): (r: string)
    ensures selected.None? ==> r == DefaultDownloadName
    ensures selected.Some? ==> r == BeforeLast(selected.value.name, '.') + DownloadSuffix
  {
    match selected
    case None => DefaultDownloadName
    case Some(f) =>
      var parts := Split(f.name, '.');
      JoinAllButLastPiece(f.name, '.');
      Join(parts[..|parts| - 1], '.') + DownloadSuffix
  }

  /** The download name keeps the chosen name up to its last '.'; a name without '.'
      keeps nothing. */
  lemma DownloadNameDropsExtension(f: AudioFile)
    ensures '.' in f.name ==> f.name == BeforeLast(f.name, '.') + "." + LastPiece(f.name, '.') &&
                              DownloadName(Some(f)) == BeforeLast(f.name, '.') + DownloadSuffix
    ensures '.' !in f.name ==> DownloadName(Some(f)) == DownloadSuffix
  {
    if '.' in f.name {
      SplitAtLast(f.name, '.');
    } else {
      assert BeforeLast(f.name, '.') == "";
      assert "" + DownloadSuffix == DownloadSuffix;
    }
  }

  lemma DownloadNameWithoutFile()
    ensures DownloadName(None) == "transcripcion.txt"
  {
  }

  lemma DownloadNameTwoDots()
    ensures DownloadName(Some(AudioFile("clase.2024.mp3", 1, "audio/mpeg"))) == "clase.2024" + DownloadSuffix
  {
    var f := AudioFile("clase.2024.mp3", 1, "audio/mpeg");
    LastIndexOfUnique(f.name, '.', 10);
    assert f.name[..10] == "clase.2024";
  }
}

/** Which uploads are accepted, and under which MIME type. */
module Validation {
  import opened Types
  import opened Pipeline

  const MAX_BYTES := 1024 * 1024 * 50
  const SNIFFED := 2048

  function FromString(value: string): Option<MimeType> {
    if value == "text/plain" then Some(Txt)
    else if value == "application/vnd.openxmlformats-officedocument.wordprocessingml.document" then Some(Docx)
    else if value == "application/vnd.openxmlformats-officedocument.spreadsheetml.sheet" then Some(Xlsx)
    else if value == "application/pdf" then Some(Pdf)
    else None
  }

  /** A detected type must be an allowed one; without a detected type only the `.txt` extension is accepted. */
  function ValidateMime(detected: Option<string>, extension: string): Option<MimeType> {
    match detected
    case Some(value) => FromString(value)
    case None => if extension == ".txt" then Some(Txt) else None
  }

  function Sniff(cfg: Config, bytes: Bytes): Option<string> {
    cfg.detect(if |bytes| <= SNIFFED then bytes else bytes[..SNIFFED])
  }

  /** The MIME type under which an upload is accepted, if it is. */
  function Accept(cfg: Config, bytes: Bytes, extension: string): Option<MimeType> {
    if |bytes| == 0 || |bytes| > MAX_BYTES then None else ValidateMime(Sniff(cfg, bytes), extension)
  }

  function Name(mime: MimeType): string {
    match mime
    case Txt => "text/plain"
    case Docx => "application/vnd.openxmlformats-officedocument.wordprocessingml.document"
    case Xlsx => "application/vnd.openxmlformats-officedocument.spreadsheetml.sheet"
    case Pdf => "application/pdf"
  }

  /** Between one byte and 50 MB, and either the first 2048 bytes have the detected type, or nothing is detected and
      the file is named a text file. */
  lemma AcceptedIff(cfg: Config, bytes: Bytes, extension: string, mime: MimeType)
    ensures Accept(cfg, bytes, extension) == Some(mime) <==>
      && 1 <= |bytes| <= 52_428_800
      && var detected := cfg.detect(bytes[..if |bytes| < 2048 then |bytes| else 2048]);
         detected == Some(Name(mime)) || (detected.None? && extension == ".txt" && mime == Txt)
  {
    hide FromString, Name;
    assert bytes[..|bytes|] == bytes;
    var detected := Sniff(cfg, bytes);
    if detected.Some? { FromStringIff(detected.value, mime); }
  }

  lemma FromStringIff(value: string, mime: MimeType)
    ensures FromString(value) == Some(mime) <==> value == Name(mime)
  {
    hide FromString, Name;
    FromStringNamed(mime);
    if FromString(value) == Some(mime) { NameOfFromString(value); }
  }

  lemma NameOfFromString(value: string)
    requires FromString(value).Some?
    ensures Name(FromString(value).value) == value
  {
  }

  /** The four names have different lengths. */
  lemma FromStringNamed(mime: MimeType)
    ensures FromString(Name(mime)) == Some(mime)
  {
    assert |Name(Txt)| == 10;
    match mime
    case Txt =>
    case Docx => assert |Name(Docx)| == 71;
    case Xlsx => assert |Name(Xlsx)| == 65;
    case Pdf => assert |Name(Pdf)| == 15;
  }

  /** The type that goes with the bytes alone. */
  function MimeOf(cfg: Config, bytes: Bytes): Option<MimeType> {
    ValidateMime(Sniff(cfg, bytes), ".txt")
  }

  /** The file name never decides between two accepted types. */
  lemma AcceptedTypeIsAFunctionOfTheBytes(cfg: Config, bytes: Bytes, ext: string, ext': string)
    requires Accept(cfg, bytes, ext).Some? && Accept(cfg, bytes, ext').Some?
    ensures Accept(cfg, bytes, ext) == Accept(cfg, bytes, ext') == MimeOf(cfg, bytes)
  {
  }
}

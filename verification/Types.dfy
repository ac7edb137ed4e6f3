/** Enumerations and small value types shared by every part of the model. */
module Types {

  datatype Option<+T> = None | Some(value: T)

  newtype byte = x: int | 0 <= x < 256

  type Bytes = seq<byte>

  datatype MimeType = Txt | Docx | Xlsx | Pdf

  datatype Provider = Gemini | Deepseek | Kimi | Qwen | Grok | Mistral | Gpt

  datatype DocumentStatus =
    | Created | Scanning | Uploading | Uploaded | Extracting | Extracted
    | Infected | Failed | Cancelled
  {
    /** The document will never produce text unless somebody writes its status again. */
    predicate Bad() {
      Infected? || Failed? || Cancelled?
    }
  }

  datatype AnalysisStatus = Queued | Analyzing | Succeeded | Broken

  datatype FailureKind = Transient | Permanent

  /** The output of a provider, identified by the text and the prompt version it was computed from. */
  datatype Report = Report(text: string, prompt: nat)
}

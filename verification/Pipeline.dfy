/** The shared state of the pipeline and the processes that work on it.

    A process is one run of a task, a message handler or an API request. Its program counter names
    the external call it makes next (a database call, a file operation, a storage call, a publish),
    and one step of a process is one such call. Pending tasks and messages are processes at `Start`. */
module Pipeline {
  import opened Types
  import opened AnalysisTable

  /** What the environment fixes for a whole run: library calls as functions, and the two antivirus settings. */
  datatype Config = Config(
    hash: Bytes -> string,
    extract: (Bytes, MimeType) -> Option<string>,
    detect: Bytes -> Option<string>,
    scanning: bool,
    failClosed: bool)
  {
    ghost predicate CollisionFree() {
      forall a: Bytes, b: Bytes :: hash(a) == hash(b) ==> a == b
    }

    predicate Gated() {
      scanning && failClosed
    }
  }

  datatype UploadedFile = UploadedFile(bytes: Bytes, mime: MimeType, provider: Provider)

  /** A row of the documents table. `req` is the request that created it; its temp file carries the same number. */
  datatype Document = Document(
    req: nat,
    hash: string,
    mime: MimeType,
    status: DocumentStatus,
    key: Option<nat>,
    temp: Option<nat>)

  /** All shared state. A temp file and the storage object made from it carry the number of the upload request.
      The last five fields are history that no step of the program reads: what was uploaded, which bytes a scan
      called clean, and what a failed last resort (a recovery write, an insert that reports failure after it
      landed, an unlink) left behind. */
  datatype World = World(
    docs: seq<Document>,
    temps: map<nat, Bytes>,
    objects: map<nat, Bytes>,
    texts: map<nat, string>,
    analyses: Table,
    uploads: map<nat, UploadedFile>,
    clean: set<Bytes>,
    lostDocs: set<nat>,
    lostRuns: set<nat>,
    leaked: set<nat>)
  {
    /** The file an upload request carries; every request of a run has one. */
    function File(req: nat): UploadedFile {
      if req in uploads then uploads[req] else UploadedFile([], Txt, Gemini)
    }

    function SetStatus(d: nat, status: DocumentStatus): World {
      if d < |docs| then this.(docs := docs[d := docs[d].(status := status)]) else this
    }

    /** The status write of every terminal branch, which also forgets the temp file name. */
    function Finish(d: nat, status: DocumentStatus): World {
      if d < |docs| then this.(docs := docs[d := docs[d].(status := status, temp := None)]) else this
    }

    function Unlink(n: nat): World {
      this.(temps := temps - {n})
    }

    function LoseDoc(d: nat): World {
      this.(lostDocs := lostDocs + {d})
    }

    /** The analysis of this document and request, if any, will not be repaired by the process that gave up. */
    function LoseRun(doc: nat, req: nat): World {
      match analyses.Find(doc, req)
      case None => this
      case Some(a) => this.(lostRuns := lostRuns + {a})
    }

    function Update(doc: nat, req: nat, change: Change): World {
      this.(analyses := analyses.Update(doc, req, change))
    }
  }

  const EMPTY_WORLD := World([], map[], map[], map[], EMPTY, map[], {}, {}, {}, {})

  /** How one external call turns out. `landed` says whether its effect took place although it raised,
      `fatal` whether the exception is one the task does not retry; `pick` resolves arbitrary choices. */
  datatype Outcome =
    | Ok(pick: nat)
    | Raise(landed: bool, fatal: bool)
    | Refuse(landed: bool)
    | Disconnect(landed: bool)
    | Infected
    | Unavailable

  datatype Args = Args(doc: nat, req: nat, mime: MimeType, provider: Provider)

  /** The common end of a failed task: recovery write and cleanup. */
  datatype Tail = ReadStatus | WriteFailed | Unlink

  datatype ScanPc =
    | Start | CheckPath | WriteCancelled | WriteScanning | Scan | WriteInfected | WriteFailed | Enqueue
    | Tail(tail: Tail) | Done

  datatype UploadPc =
    | Start | CheckPath | WriteCancelled | WriteUploading | Head | Put | WriteUploaded | WriteFailed | Enqueue
    | Tail(tail: Tail) | Done

  datatype ExtractPc =
    | Start | CheckPath(key: Option<nat>) | Restore(key: Option<nat>, again: bool) | WriteExtracting(key: Option<nat>)
    | Extract(key: Option<nat>, again: bool) | Upsert(text: string) | WriteExtracted | WriteFailed
    | Unlink | Find | Insert | FindAgain | Publish(run: nat)
    | ReadExtracted | MarkFind | MarkWrite
    | Tail(tail: Tail) | Done

  datatype Candidate = Candidate(doc: nat, key: nat)

  datatype Plan = Full | ExtractOnly(key: nat) | AnalyseOnly(key: nat, text: string)

  datatype RequestPc =
    | Save | Candidates | Content(found: seq<Candidate>) | CreateDoc(plan: Plan)
    | EnqueueFirst(doc: nat) | EnqueueExtract(doc: nat)
    | UpsertText(doc: nat, text: string) | Degrade(doc: nat) | Unlink(doc: nat)
    | Find(doc: nat) | Insert(doc: nat) | FindAgain(doc: nat) | Publish(doc: nat, run: nat)
    | MarkFind(doc: nat) | MarkWrite(doc: nat)
    | MarkFailed(doc: nat) | Discard(created: Option<nat>) | Done

  datatype CancelPc = Start | Write(temp: Option<nat>) | Unlink(name: nat) | Done

  datatype ApiPc =
    | Start | ReadText | Get | FindChild(provider: Provider) | Insert(provider: Provider) | FindAgain
    | Publish(run: nat) | MarkFind(run: nat) | MarkWrite(run: nat) | Done

  datatype RemovePc = Start | Get | FindChild(terminal: bool) | Delete | Done

  datatype HandlerPc =
    | Start | Corrupt | ReadText | NoText | ReadPrompt(text: string) | WriteAnalyzing(text: string, version: nat)
    | Ask(text: string, version: nat) | WriteSuccess(report: Report) | WriteRefused
    | Recover | RecoverWrite | Done

  /** `left` counts the retries Celery still grants a task, `deliveries` the dead-letterings of a message. */
  datatype Proc =
    | Request(req: nat, rpc: RequestPc)
    | Scanner(args: Args, spc: ScanPc, left: nat)
    | Uploader(args: Args, upc: UploadPc, left: nat)
    | Extractor(args: Args, epc: ExtractPc, left: nat)
    | Canceller(target: nat, cpc: CancelPc)
    | Creator(target: nat, req: nat, provider: Provider, apc: ApiPc)
    | Retrier(target: nat, req: nat, parent: nat, apc: ApiPc)
    | Remover(target: nat, analysis: nat, mpc: RemovePc)
    | Handler(target: nat, analysis: nat, req: nat, hpc: HandlerPc, deliveries: nat)
  {
    predicate Ended() {
      match this
      case Request(_, pc) => pc.Done?
      case Scanner(_, pc, _) => pc.Done?
      case Uploader(_, pc, _) => pc.Done?
      case Extractor(_, pc, _) => pc.Done?
      case Canceller(_, pc) => pc.Done?
      case Creator(_, _, _, pc) => pc.Done?
      case Retrier(_, _, _, pc) => pc.Done?
      case Remover(_, _, pc) => pc.Done?
      case Handler(_, _, _, pc, _) => pc.Done?
    }

    /** Between two deliveries: nothing of the current run has happened yet. */
    predicate Idle() {
      match this
      case Request(_, pc) => pc.Save?
      case Scanner(_, pc, _) => pc.Start?
      case Uploader(_, pc, _) => pc.Start?
      case Extractor(_, pc, _) => pc.Start?
      case Canceller(_, pc) => pc.Start?
      case Creator(_, _, _, pc) => pc.Start?
      case Retrier(_, _, _, pc) => pc.Start?
      case Remover(_, _, pc) => pc.Start?
      case Handler(_, _, _, pc, _) => pc.Start?
    }

    /** Inside a run. */
    predicate Running() {
      !Idle() && !Ended()
    }

    predicate IsTask() {
      Scanner? || Uploader? || Extractor?
    }

    /** The document this process works on, once there is one. */
    function Doc(): Option<nat> {
      match this
      case Request(_, pc) =>
        (match pc
         case EnqueueFirst(d) => Some(d)
         case EnqueueExtract(d) => Some(d)
         case UpsertText(d, _) => Some(d)
         case Degrade(d) => Some(d)
         case Unlink(d) => Some(d)
         case Find(d) => Some(d)
         case Insert(d) => Some(d)
         case FindAgain(d) => Some(d)
         case Publish(d, _) => Some(d)
         case MarkFind(d) => Some(d)
         case MarkWrite(d) => Some(d)
         case MarkFailed(d) => Some(d)
         case Discard(d) => d
         case _ => None)
      case Scanner(a, _, _) => Some(a.doc)
      case Uploader(a, _, _) => Some(a.doc)
      case Extractor(a, _, _) => Some(a.doc)
      case Canceller(d, _) => Some(d)
      case Creator(d, _, _, _) => Some(d)
      case Retrier(d, _, _, _) => Some(d)
      case Remover(d, _, _) => Some(d)
      case Handler(d, _, _, _, _) => Some(d)
    }
  }

  const MAX_RETRIES: nat := 3

  /** What a step leaves behind: the new shared state, the stepping process, and a process it enqueued. */
  datatype Move = Move(world: World, proc: Proc, spawned: Option<Proc>)
}

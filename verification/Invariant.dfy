/** The invariant of the pipeline: what the tables satisfy, and what each process may rely on at its next call. */
module Invariant {
  import opened Types
  import opened AnalysisTable
  import opened Pipeline
  import Validation

  /** The object under this key hashes to this value. */
  ghost predicate StoredAs(cfg: Config, objects: map<nat, Bytes>, key: nat, hash: string) {
    key in objects && cfg.hash(objects[key]) == hash
  }

  /** The text extraction gives for these bytes under the type they were accepted with. */
  ghost function TextOf(cfg: Config, file: UploadedFile): Option<string> {
    cfg.extract(file.bytes, file.mime)
  }

  ghost predicate DocOk(cfg: Config, uploads: map<nat, UploadedFile>, objects: map<nat, Bytes>, doc: Document) {
    && doc.req in uploads
    && doc.hash == cfg.hash(uploads[doc.req].bytes)
    && doc.mime == uploads[doc.req].mime
    && (doc.key.Some? ==> StoredAs(cfg, objects, doc.key.value, doc.hash))
    && (doc.status.Uploaded? || doc.status.Extracting? || doc.status.Extracted? ==> doc.key.Some?)
    && (doc.temp.Some? ==> doc.temp.value == doc.req)
  }

  ghost predicate DocsOk(cfg: Config, uploads: map<nat, UploadedFile>, objects: map<nat, Bytes>, docs: seq<Document>) {
    forall d :: 0 <= d < |docs| ==> DocOk(cfg, uploads, objects, docs[d])
  }

  ghost predicate UploadsOk(cfg: Config, uploads: map<nat, UploadedFile>) {
    forall n <- uploads :: Validation.MimeOf(cfg, uploads[n].bytes) == Some(uploads[n].mime)
  }

  /** A temp file and a stored object hold exactly the bytes that were uploaded under their number. */
  ghost predicate BytesOk(uploads: map<nat, UploadedFile>, files: map<nat, Bytes>) {
    forall n <- files :: n in uploads && files[n] == uploads[n].bytes
  }

  ghost predicate GateOk(cfg: Config, objects: map<nat, Bytes>, clean: set<Bytes>) {
    cfg.Gated() ==> forall n <- objects :: objects[n] in clean
  }

  ghost predicate TextsOk(cfg: Config, uploads: map<nat, UploadedFile>, docs: seq<Document>, texts: map<nat, string>) {
    forall d <- texts :: d < |docs| && docs[d].req in uploads && TextOf(cfg, uploads[docs[d].req]) == Some(texts[d])
  }

  /** An analysis belongs to a document that has a text, and its result was computed from that text. */
  ghost predicate RowsOk(rows: map<nat, Analysis>, texts: map<nat, string>) {
    forall a <- rows :: rows[a].doc in texts
      && (rows[a].report.Some? ==> rows[a].report.value.text == texts[rows[a].doc])
  }

  /** A retry works on the same document with the same provider as the analysis it repeats. */
  ghost predicate KinOk(rows: map<nat, Analysis>) {
    forall a, p {:trigger rows[a], rows[p]} :: a in rows && p in rows && rows[a].retryOf == Some(p) ==>
      rows[p].doc == rows[a].doc && rows[p].provider == rows[a].provider
  }

  ghost predicate WorldOk(cfg: Config, w: World) {
    && UploadsOk(cfg, w.uploads)
    && DocsOk(cfg, w.uploads, w.objects, w.docs)
    && BytesOk(w.uploads, w.temps)
    && BytesOk(w.uploads, w.objects)
    && GateOk(cfg, w.objects, w.clean)
    && TextsOk(cfg, w.uploads, w.docs, w.texts)
    && w.analyses.Valid()
    && RowsOk(w.analyses.rows, w.texts)
    && KinOk(w.analyses.rows)
  }

  ghost predicate OfRequest(w: World, d: nat, req: nat) {
    d < |w.docs| && w.docs[d].req == req
  }

  /** Somebody may act on the status `extracted` only because the text is there. */
  ghost predicate TextReady(w: World, d: nat)
    requires d < |w.docs|
  {
    w.docs[d].status == Extracted ==> d in w.texts
  }

  ghost predicate HasKey(w: World, d: nat)
    requires d < |w.docs|
  {
    w.docs[d].key.Some?
  }

  ghost predicate ArgsOk(w: World, args: Args) {
    && args.req in w.uploads
    && OfRequest(w, args.doc, args.req)
    && args.mime == w.uploads[args.req].mime
    && args.provider == w.uploads[args.req].provider
    && TextReady(w, args.doc)
  }

  ghost predicate Scanned(cfg: Config, w: World, req: nat)
    requires req in w.uploads
  {
    cfg.Gated() ==> w.uploads[req].bytes in w.clean
  }

  ghost predicate KeyOk(cfg: Config, w: World, d: nat, key: Option<nat>)
    requires d < |w.docs|
  {
    key.Some? && StoredAs(cfg, w.objects, key.value, w.docs[d].hash)
  }

  /** An id that was handed out for this document and request; the row may have been removed since. */
  ghost predicate RunOk(t: Table, run: nat, d: nat, req: nat) {
    && run < t.next
    && (run in t.rows ==> t.rows[run].doc == d && t.rows[run].req == req)
  }

  ghost predicate RequestOk(cfg: Config, w: World, req: nat, pc: RequestPc) {
    && req in w.uploads
    && var file := w.uploads[req];
       var hash := cfg.hash(file.bytes);
    match pc
    case Save => true
    case Candidates => true
    case Content(found) =>
      && found != []
      && forall c <- found :: c.doc < |w.docs| && w.docs[c.doc].hash == hash && StoredAs(cfg, w.objects, c.key, hash)
    case CreateDoc(Full) => true
    case CreateDoc(ExtractOnly(key)) => StoredAs(cfg, w.objects, key, hash)
    case CreateDoc(AnalyseOnly(key, text)) =>
      StoredAs(cfg, w.objects, key, hash) && TextOf(cfg, file) == Some(text) && text != ""
    case EnqueueFirst(d) => OfRequest(w, d, req) && TextReady(w, d)
    case EnqueueExtract(d) => OfRequest(w, d, req) && TextReady(w, d) && HasKey(w, d)
    case UpsertText(d, text) =>
      OfRequest(w, d, req) && HasKey(w, d) && TextOf(cfg, file) == Some(text) && text != ""
    case Degrade(d) => OfRequest(w, d, req) && HasKey(w, d)
    case Unlink(d) => OfRequest(w, d, req) && d in w.texts
    case Find(d) => OfRequest(w, d, req) && d in w.texts
    case Insert(d) => OfRequest(w, d, req) && d in w.texts
    case FindAgain(d) => OfRequest(w, d, req) && d in w.texts
    case Publish(d, run) => OfRequest(w, d, req) && d in w.texts && RunOk(w.analyses, run, d, req)
    case MarkFind(d) => OfRequest(w, d, req)
    case MarkWrite(d) => OfRequest(w, d, req)
    case MarkFailed(d) => OfRequest(w, d, req)
    case Discard(Some(d)) => OfRequest(w, d, req)
    case Discard(None) => true
    case Done => true
  }

  ghost predicate ExtractOk(cfg: Config, w: World, args: Args, pc: ExtractPc) {
    && ArgsOk(w, args)
    && HasKey(w, args.doc)
    && match pc
       case CheckPath(key) => KeyOk(cfg, w, args.doc, key)
       case Restore(key, _) => KeyOk(cfg, w, args.doc, key)
       case WriteExtracting(key) => KeyOk(cfg, w, args.doc, key)
       case Extract(key, _) => KeyOk(cfg, w, args.doc, key)
       case Upsert(text) => TextOf(cfg, w.uploads[args.req]) == Some(text)
       case WriteExtracted => args.doc in w.texts
       case Unlink => args.doc in w.texts
       case Find => args.doc in w.texts
       case Insert => args.doc in w.texts
       case FindAgain => args.doc in w.texts
       case Publish(run) => args.doc in w.texts && RunOk(w.analyses, run, args.doc, args.req)
       case _ => true
  }

  ghost predicate ApiOk(w: World, d: nat, req: nat, pc: ApiPc) {
    && (pc.Start? || pc.Done? || d < |w.docs|)
    && match pc
       case Get => d in w.texts
       case FindChild(_) => d in w.texts
       case Insert(_) => d in w.texts
       case Publish(run) => d in w.texts && RunOk(w.analyses, run, d, req)
       case MarkFind(run) => RunOk(w.analyses, run, d, req)
       case MarkWrite(run) => RunOk(w.analyses, run, d, req)
       case _ => true
  }

  /** The parent a retry has looked up, as long as it exists, and the provider taken from it. */
  ghost predicate ParentOk(w: World, d: nat, parent: nat, pc: ApiPc) {
    match pc
    case FindChild(provider) => ParentIs(w.analyses, d, parent, provider)
    case Insert(provider) => ParentIs(w.analyses, d, parent, provider)
    case Publish(run) => ChildOf(w.analyses, run, parent)
    case MarkFind(run) => ChildOf(w.analyses, run, parent)
    case MarkWrite(run) => ChildOf(w.analyses, run, parent)
    case _ => true
  }

  /** The id was handed out for a retry of `parent`. */
  ghost predicate ChildOf(t: Table, run: nat, parent: nat) {
    run < t.next && (run in t.rows ==> t.rows[run].retryOf == Some(parent))
  }

  ghost predicate ParentIs(t: Table, d: nat, parent: nat, provider: Provider) {
    parent < t.next && (parent in t.rows ==> t.rows[parent].doc == d && t.rows[parent].provider == provider)
  }

  ghost predicate HandlerOk(w: World, d: nat, a: nat, req: nat, pc: HandlerPc) {
    && RunOk(w.analyses, a, d, req)
    && d in w.texts
    && match pc
       case Corrupt => false
       case NoText => w.texts[d] == ""
       case ReadPrompt(text) => text == w.texts[d]
       case WriteAnalyzing(text, _) => text == w.texts[d]
       case Ask(text, _) => text == w.texts[d]
       case WriteSuccess(report) => report.text == w.texts[d]
       case _ => true
  }

  ghost predicate ProcOk(cfg: Config, w: World, p: Proc) {
    match p
    case Request(req, pc) => RequestOk(cfg, w, req, pc)
    case Scanner(args, pc, _) => ArgsOk(w, args) && (pc.Enqueue? ==> Scanned(cfg, w, args.req))
    case Uploader(args, pc, _) =>
      && ArgsOk(w, args) && Scanned(cfg, w, args.req)
      && (pc.WriteUploaded? ==> args.req in w.objects)
      && (pc.Enqueue? ==> HasKey(w, args.doc))
    case Extractor(args, pc, _) => ExtractOk(cfg, w, args, pc)
    case Canceller(d, pc) =>
      (match pc
       case Write(temp) => d < |w.docs| && (temp.Some? ==> temp.value == w.docs[d].req)
       case Unlink(name) => OfRequest(w, d, name)
       case _ => true)
    case Creator(d, req, _, pc) => ApiOk(w, d, req, pc)
    case Retrier(d, req, parent, pc) => ApiOk(w, d, req, pc) && ParentOk(w, d, parent, pc)
    case Remover(d, target, pc) =>
      && (pc.Start? || pc.Done? || d < |w.docs|)
      && (pc.Delete? || pc.FindChild? ==>
        target < w.analyses.next && (target in w.analyses.rows ==> w.analyses.rows[target].doc == d))
    case Handler(d, a, req, pc, _) => HandlerOk(w, d, a, req, pc)
  }

  ghost predicate DocGrows(doc: Document, doc': Document, hasText: bool) {
    && doc'.req == doc.req && doc'.hash == doc.hash && doc'.mime == doc.mime
    && (doc.key.Some? ==> doc'.key.Some?)
    && (doc'.status == Extracted ==> doc.status == Extracted || hasText)
  }

  ghost predicate DocsGrow(docs: seq<Document>, docs': seq<Document>, texts': map<nat, string>) {
    && |docs| <= |docs'|
    && forall d :: 0 <= d < |docs| ==> DocGrows(docs[d], docs'[d], d in texts')
  }

  ghost predicate Extends<K, V>(m: map<K, V>, m': map<K, V>) {
    forall k <- m :: k in m' && m'[k] == m[k]
  }

  ghost predicate SameRun(row: Analysis, row': Analysis) {
    row.doc == row'.doc && row.req == row'.req && row.provider == row'.provider && row.retryOf == row'.retryOf
  }

  ghost predicate TableGrows(t: Table, t': Table) {
    && t.next <= t'.next
    && (forall a <- t'.rows :: a < t.next ==> a in t.rows && SameRun(t.rows[a], t'.rows[a]))
  }

  /** Facts no step ever takes back. In particular an object, once stored, keeps its bytes forever,
      a key is never cleared, and a text never changes. */
  ghost predicate Grows(w: World, w': World) {
    && Extends(w.uploads, w'.uploads)
    && Extends(w.objects, w'.objects)
    && Extends(w.texts, w'.texts)
    && w.clean <= w'.clean
    && DocsGrow(w.docs, w'.docs, w'.texts)
    && TableGrows(w.analyses, w'.analyses)
  }

  lemma RequestOkStable(cfg: Config, w: World, w': World, req: nat, pc: RequestPc)
    requires RequestOk(cfg, w, req, pc) && Grows(w, w')
    ensures RequestOk(cfg, w', req, pc)
  {
  }

  lemma ExtractOkStable(cfg: Config, w: World, w': World, args: Args, pc: ExtractPc)
    requires ExtractOk(cfg, w, args, pc) && Grows(w, w')
    ensures ExtractOk(cfg, w', args, pc)
  {
  }

  lemma HandlerOkStable(w: World, w': World, d: nat, a: nat, req: nat, pc: HandlerPc)
    requires HandlerOk(w, d, a, req, pc) && Grows(w, w')
    ensures HandlerOk(w', d, a, req, pc)
  {
  }

  lemma ProcOkStable(cfg: Config, w: World, w': World, p: Proc)
    requires ProcOk(cfg, w, p) && Grows(w, w')
    ensures ProcOk(cfg, w', p)
  {
    hide RequestOk, ExtractOk, HandlerOk;
    match p
    case Request(req, pc) => RequestOkStable(cfg, w, w', req, pc);
    case Extractor(args, pc, _) => ExtractOkStable(cfg, w, w', args, pc);
    case Handler(d, a, req, pc, _) => HandlerOkStable(w, w', d, a, req, pc);
    case _ =>
  }

  ghost predicate OtherDocs(docs: seq<Document>, docs': seq<Document>, d: nat) {
    && |docs| <= |docs'| <= |docs| + 1
    && (|docs'| > |docs| ==> d == |docs|)
    && forall e :: 0 <= e < |docs| && e != d ==> docs'[e] == docs[e]
  }

  ghost predicate OtherTemps(temps: map<nat, Bytes>, temps': map<nat, Bytes>, n: Option<nat>) {
    forall k :: n != Some(k) ==> (k in temps' <==> k in temps)
  }

  ghost predicate OtherRows(rows: map<nat, Analysis>, rows': map<nat, Analysis>, d: nat) {
    && (forall a <- rows :: rows[a].doc != d ==> a in rows' && rows'[a] == rows[a])
    && (forall a <- rows' :: rows'[a].doc != d ==> a in rows && rows'[a] == rows[a])
  }

  /** What a process may write: its own document, the analyses of that document, its own temp file. */
  datatype Scope = Scope(doc: nat, temp: Option<nat>)

  ghost predicate Framed(at: Scope, w: World, w': World) {
    && w'.uploads == w.uploads
    && OtherDocs(w.docs, w'.docs, at.doc)
    && (|w'.docs| > |w.docs| ==> at.temp == Some(w'.docs[|w.docs|].req))
    && OtherTemps(w.temps, w'.temps, at.temp)
    && OtherRows(w.analyses.rows, w'.analyses.rows, at.doc)
    && w.lostDocs <= w'.lostDocs && w.lostRuns <= w'.lostRuns && w.leaked <= w'.leaked
  }

  /** Before a request has created its document, the next free position is its own. */
  function ScopeOf(w: World, p: Proc): Scope {
    var d := if p.Doc().Some? then p.Doc().value else |w.docs|;
    Scope(d,
      match p
      case Request(req, _) => Some(req)
      case Scanner(args, _, _) => Some(args.req)
      case Uploader(args, _, _) => Some(args.req)
      case Extractor(args, _, _) => Some(args.req)
      case Canceller(_, _) => if d < |w.docs| then Some(w.docs[d].req) else None
      case _ => None)
  }

  ghost predicate Kept(cfg: Config, at: Scope, w: World, w': World) {
    WorldOk(cfg, w') && Grows(w, w') && Framed(at, w, w')
  }

  /** What one step guarantees. */
  ghost predicate StepOk(cfg: Config, w: World, p: Proc, m: Move) {
    && Kept(cfg, ScopeOf(w, p), w, m.world)
    && ProcOk(cfg, m.world, m.proc)
    && (m.spawned.Some? ==> ProcOk(cfg, m.world, m.spawned.value))
  }
}

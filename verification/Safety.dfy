/** What holds at every moment of every interleaving: storage agrees with hashes, texts belong to their bytes,
    a status that promises a stored object has one, and the scan gate. */
module Safety {
  import opened Types
  import opened AnalysisTable
  import opened Pipeline
  import opened BaseTask
  import opened Machine
  import opened Invariant
  import opened Writes
  import Validation
  import ScanTask
  import UploadTask
  import ExtractTask
  import UploadRequest
  import Services
  import Consumer

  lemma TailKept(cfg: Config, at: Scope, w: World, args: Args, t: Tail, o: Outcome)
    requires WorldOk(cfg, w) && ArgsOk(w, args)
    requires at == Scope(args.doc, Some(args.req))
    ensures Kept(cfg, at, w, StepTail(w, args, t, o))
  {
    hide WorldOk, Grows;
    SameOk(cfg, at, w);
    StatusOk(cfg, at, w, args.doc, Failed);
    CleanedOk(cfg, at, w, args.req, o);
    LossOk(cfg, at, w, w.LoseDoc(args.doc));
  }

  lemma ScannerKept(cfg: Config, w: World, args: Args, pc: ScanPc, left: nat, o: Outcome)
    requires WorldOk(cfg, w) && ProcOk(cfg, w, Scanner(args, pc, left))
    ensures Kept(cfg, ScopeOf(w, Scanner(args, pc, left)), w, ScanTask.Step(cfg, w, args, pc, left, o).world)
  {
    hide WorldOk, Grows;
    var at := ScopeOf(w, Scanner(args, pc, left));
    SameOk(cfg, at, w);
    match pc
    case WriteCancelled => StatusOk(cfg, at, w, args.doc, Cancelled);
    case WriteScanning => StatusOk(cfg, at, w, args.doc, Scanning);
    case WriteInfected => StatusOk(cfg, at, w, args.doc, DocumentStatus.Infected);
    case WriteFailed => StatusOk(cfg, at, w, args.doc, Failed);
    case Scan => CleanOk(cfg, at, w, args.req);
    case Tail(t) => TailKept(cfg, at, w, args, t, o);
    case _ =>
  }

  lemma ScannerStepOk(cfg: Config, w: World, args: Args, pc: ScanPc, left: nat, o: Outcome)
    requires WorldOk(cfg, w) && ProcOk(cfg, w, Scanner(args, pc, left))
    ensures StepOk(cfg, w, Scanner(args, pc, left), ScanTask.Step(cfg, w, args, pc, left, o))
  {
    hide WorldOk;
    ScannerKept(cfg, w, args, pc, left, o);
    var m := ScanTask.Step(cfg, w, args, pc, left, o);
    ProcOkStable(cfg, w, m.world, Scanner(args, ScanPc.Start, left));
    if pc.Scan? && args.req in w.temps { ScanClean(cfg, w, args.req); }
  }

  lemma ScanClean(cfg: Config, w: World, n: nat)
    requires WorldOk(cfg, w) && n in w.temps
    ensures n in w.uploads && w.temps[n] == w.uploads[n].bytes
  {
  }

  lemma UploaderKept(cfg: Config, w: World, args: Args, pc: UploadPc, left: nat, o: Outcome)
    requires WorldOk(cfg, w) && ProcOk(cfg, w, Uploader(args, pc, left))
    ensures Kept(cfg, ScopeOf(w, Uploader(args, pc, left)), w, UploadTask.Step(w, args, pc, left, o).world)
  {
    hide WorldOk, Grows;
    var at := ScopeOf(w, Uploader(args, pc, left));
    SameOk(cfg, at, w);
    match pc
    case WriteCancelled => StatusOk(cfg, at, w, args.doc, Cancelled);
    case WriteUploading => StatusOk(cfg, at, w, args.doc, Uploading);
    case Put => if args.req in w.temps { PutOk(cfg, at, w, args.req); }
    case WriteUploaded => UploadedOk(cfg, at, w, args);
    case WriteFailed => StatusOk(cfg, at, w, args.doc, Failed);
    case Tail(t) => TailKept(cfg, at, w, args, t, o);
    case _ =>
  }

  lemma UploadedOk(cfg: Config, at: Scope, w: World, args: Args)
    requires WorldOk(cfg, w) && ArgsOk(w, args) && args.req in w.objects
    requires at.doc == args.doc
    ensures Kept(cfg, at, w, UploadTask.SetUploaded(w, args.doc, args.req))
  {
    DocWriteOk(cfg, at, w, args.doc, w.docs[args.doc].(key := Some(args.req), status := Uploaded));
  }

  lemma UploaderStepOk(cfg: Config, w: World, args: Args, pc: UploadPc, left: nat, o: Outcome)
    requires WorldOk(cfg, w) && ProcOk(cfg, w, Uploader(args, pc, left))
    ensures StepOk(cfg, w, Uploader(args, pc, left), UploadTask.Step(w, args, pc, left, o))
  {
    hide WorldOk;
    UploaderKept(cfg, w, args, pc, left, o);
    var m := UploadTask.Step(w, args, pc, left, o);
    ProcOkStable(cfg, w, m.world, Uploader(args, pc, left));
    assert ProcOk(cfg, m.world, Uploader(args, UploadPc.Start, left));
  }

  lemma RestoreOk(cfg: Config, at: Scope, w: World, args: Args, key: nat)
    requires cfg.CollisionFree()
    requires WorldOk(cfg, w) && ArgsOk(w, args) && KeyOk(cfg, w, args.doc, Some(key))
    requires at.temp == Some(args.req)
    ensures Kept(cfg, at, w, w.(temps := w.temps[args.req := w.objects[key]]))
  {
    assert DocOk(cfg, w.uploads, w.objects, w.docs[args.doc]);
    assert w.objects[key] == w.uploads[args.req].bytes;
    TempOk(cfg, at, w, args.req);
  }

  lemma ExtractorKept(cfg: Config, w: World, args: Args, pc: ExtractPc, left: nat, o: Outcome)
    requires cfg.CollisionFree()
    requires WorldOk(cfg, w) && ProcOk(cfg, w, Extractor(args, pc, left))
    ensures Kept(cfg, ScopeOf(w, Extractor(args, pc, left)), w, ExtractTask.Step(cfg, w, args, pc, left, o).world)
  {
    hide WorldOk, Grows, Framed, ExtractTask.StepFailure;
    var at := ScopeOf(w, Extractor(args, pc, left));
    SameOk(cfg, at, w);
    match pc
    case Restore(key, _) => RestoreOk(cfg, at, w, args, key.value);
    case WriteExtracting(_) => StatusOk(cfg, at, w, args.doc, Extracting);
    case Upsert(text) => TextOk(cfg, at, w, args.doc, text);
    case WriteExtracted => StatusOk(cfg, at, w, args.doc, Extracted);
    case WriteFailed => StatusOk(cfg, at, w, args.doc, Failed);
    case Unlink => CleanedOk(cfg, at, w, args.req, o);
    case Insert =>
      if w.analyses.Accepts(args.doc, args.req, None) { InsertOk(cfg, at, w, args.doc, args.req, args.provider, None); }
    case ReadExtracted => hide *; FailureKept(cfg, w, args, pc, left, o);
    case MarkFind => hide *; FailureKept(cfg, w, args, pc, left, o);
    case MarkWrite => hide *; FailureKept(cfg, w, args, pc, left, o);
    case Tail(t) => hide *; FailureKept(cfg, w, args, pc, left, o);
    case _ =>
  }

  lemma FailureKept(cfg: Config, w: World, args: Args, pc: ExtractPc, left: nat, o: Outcome)
    requires WorldOk(cfg, w) && ArgsOk(w, args)
    requires pc.ReadExtracted? || pc.MarkFind? || pc.MarkWrite? || pc.Tail?
    ensures Kept(cfg, ScopeOf(w, Extractor(args, pc, left)), w, ExtractTask.Step(cfg, w, args, pc, left, o).world)
  {
    hide WorldOk, Grows, Framed, ExtractTask.StepDispatch;
    var at := ScopeOf(w, Extractor(args, pc, left));
    SameOk(cfg, at, w);
    match pc
    case ReadExtracted => LossOk(cfg, at, w, w.LoseDoc(args.doc).LoseRun(args.doc, args.req));
    case MarkFind => LossOk(cfg, at, w, w.LoseRun(args.doc, args.req));
    case MarkWrite =>
      LossOk(cfg, at, w, w.LoseRun(args.doc, args.req));
      UpdateOk(cfg, at, w, args.doc, args.req, Break(Transient));
    case Tail(t) => TailKept(cfg, at, w, args, t, o);
    case _ =>
  }

  /** What a process may rely on about the document and the tables it reads. */
  lemma ReadOk(cfg: Config, w: World, d: nat, req: nat)
    requires WorldOk(cfg, w) && OfRequest(w, d, req)
    ensures req in w.uploads && DocOk(cfg, w.uploads, w.objects, w.docs[d])
    ensures req in w.temps ==> w.temps[req] == w.uploads[req].bytes
    ensures w.analyses.Find(d, req).Some? ==> RunOk(w.analyses, w.analyses.Find(d, req).value, d, req)
  {
  }

  /** Where an extraction goes next was already in order before the step, except after a write it relies on. */
  lemma ExtractorNext(cfg: Config, w: World, args: Args, pc: ExtractPc, left: nat, o: Outcome)
    requires WorldOk(cfg, w) && ExtractOk(cfg, w, args, pc)
    requires !pc.Insert? && !pc.Upsert?
    ensures var m := ExtractTask.Step(cfg, w, args, pc, left, o);
      m.proc.Extractor? && m.proc.args == args && ExtractOk(cfg, w, args, m.proc.epc)
  {
    hide WorldOk, ExtractTask.StepDispatch, ExtractTask.StepFailure;
    match pc
    case Start => hide *; ReadingNext(cfg, w, args, pc, left, o);
    case Extract(_, _) => hide *; ReadingNext(cfg, w, args, pc, left, o);
    case Find => hide ExtractOk; DispatchNext(cfg, w, args, pc, left, o);
    case FindAgain => hide ExtractOk; DispatchNext(cfg, w, args, pc, left, o);
    case Publish(_) => hide ExtractOk; DispatchNext(cfg, w, args, pc, left, o);
    case ReadExtracted => hide ExtractOk; FailureNext(cfg, w, args, pc, left, o);
    case MarkFind => hide ExtractOk; FailureNext(cfg, w, args, pc, left, o);
    case MarkWrite => hide ExtractOk; FailureNext(cfg, w, args, pc, left, o);
    case Tail(_) => hide ExtractOk; FailureNext(cfg, w, args, pc, left, o);
    case _ =>
  }

  lemma ReadingNext(cfg: Config, w: World, args: Args, pc: ExtractPc, left: nat, o: Outcome)
    requires WorldOk(cfg, w) && ExtractOk(cfg, w, args, pc)
    requires pc.Start? || pc.Extract?
    ensures var m := ExtractTask.Step(cfg, w, args, pc, left, o);
      m.proc.Extractor? && m.proc.args == args && ExtractOk(cfg, w, args, m.proc.epc)
  {
    hide WorldOk, ExtractTask.StepDispatch, ExtractTask.StepFailure;
    ReadOk(cfg, w, args.doc, args.req);
  }

  lemma DispatchNext(cfg: Config, w: World, args: Args, pc: ExtractPc, left: nat, o: Outcome)
    requires WorldOk(cfg, w) && ExtractOk(cfg, w, args, pc)
    requires ExtractTask.Dispatching(pc) && !pc.Insert?
    ensures var m := ExtractTask.StepDispatch(w, args, pc, left, o);
      m.proc.Extractor? && m.proc.args == args && ExtractOk(cfg, w, args, m.proc.epc)
  {
    hide WorldOk;
    ReadOk(cfg, w, args.doc, args.req);
  }

  lemma FailureNext(cfg: Config, w: World, args: Args, pc: ExtractPc, left: nat, o: Outcome)
    requires ExtractOk(cfg, w, args, pc)
    ensures var m := ExtractTask.StepFailure(w, args, pc, left, o);
      m.proc.Extractor? && m.proc.args == args && ExtractOk(cfg, w, args, m.proc.epc)
  {
  }

  lemma ExtractorSpawned(cfg: Config, w: World, args: Args, pc: ExtractPc, left: nat, o: Outcome)
    requires ExtractOk(cfg, w, args, pc)
    ensures var m := ExtractTask.Step(cfg, w, args, pc, left, o);
      m.spawned.Some? ==> pc.Publish? && ProcOk(cfg, w, m.spawned.value)
  {
  }

  lemma ExtractorStepOk(cfg: Config, w: World, args: Args, pc: ExtractPc, left: nat, o: Outcome)
    requires cfg.CollisionFree()
    requires WorldOk(cfg, w) && ProcOk(cfg, w, Extractor(args, pc, left))
    ensures StepOk(cfg, w, Extractor(args, pc, left), ExtractTask.Step(cfg, w, args, pc, left, o))
  {
    hide WorldOk, Grows, Framed, ExtractTask.StepFailure;
    ExtractorKept(cfg, w, args, pc, left, o);
    ExtractorSpawned(cfg, w, args, pc, left, o);
    var m := ExtractTask.Step(cfg, w, args, pc, left, o);
    if pc.Insert? || pc.Upsert? {
      ExtractOkStable(cfg, w, m.world, args, pc);
    } else {
      hide ExtractTask.Step, ExtractOk;
      ExtractorNext(cfg, w, args, pc, left, o);
      ExtractOkStable(cfg, w, m.world, args, m.proc.epc);
      if m.spawned.Some? { ProcOkStable(cfg, w, m.world, m.spawned.value); }
    }
  }

  lemma ReusableOk(cfg: Config, w: World, docs: seq<Document>, hash: string)
    requires WorldOk(cfg, w) && docs <= w.docs
    ensures forall c <- UploadRequest.Reusable(docs, hash) ::
      c.doc < |docs| && docs[c.doc].hash == hash && StoredAs(cfg, w.objects, c.key, hash)
  {
    hide Table.Valid, KinOk, RowsOk, BytesOk, GateOk, UploadsOk, TextsOk;
    if docs != [] {
      var last := |docs| - 1;
      assert docs[last] == w.docs[last];
      ReusableOk(cfg, w, docs[..last], hash);
    }
  }

  lemma WithTextOk(found: seq<Candidate>, texts: map<nat, string>)
    ensures forall c <- UploadRequest.WithText(found, texts) :: c in found && c.doc in texts && texts[c.doc] != ""
  {
  }

  /** Deduplication preserves meaning: equal hashes mean equal bytes, equal bytes mean an equal MIME type,
      so the text of the duplicate is the text of the new upload. */
  lemma CopiedText(cfg: Config, w: World, d: nat, file: UploadedFile)
    requires cfg.CollisionFree() && WorldOk(cfg, w)
    requires d in w.texts && d < |w.docs| && w.docs[d].hash == cfg.hash(file.bytes)
    requires Validation.MimeOf(cfg, file.bytes) == Some(file.mime)
    ensures TextOf(cfg, file) == Some(w.texts[d])
  {
    assert DocOk(cfg, w.uploads, w.objects, w.docs[d]);
  }

  lemma NewDocumentOk(cfg: Config, w: World, req: nat, plan: Plan)
    requires RequestOk(cfg, w, req, CreateDoc(plan))
    ensures var doc := UploadRequest.NewDocument(cfg, w.uploads[req], req, plan);
      DocOk(cfg, w.uploads, w.objects, doc) && doc.req == req
  {
  }

  lemma CreateOk(cfg: Config, at: Scope, w: World, req: nat, plan: Plan)
    requires WorldOk(cfg, w) && RequestOk(cfg, w, req, CreateDoc(plan))
    requires at.doc == |w.docs| && at.temp == Some(req)
    ensures Kept(cfg, at, w, w.(docs := w.docs + [UploadRequest.NewDocument(cfg, w.uploads[req], req, plan)]))
  {
    hide Table.Valid, KinOk, RowsOk, BytesOk, GateOk, UploadsOk, UploadRequest.NewDocument;
    NewDocumentOk(cfg, w, req, plan);
  }

  lemma DegradeOk(cfg: Config, at: Scope, w: World, d: nat, req: nat)
    requires WorldOk(cfg, w) && OfRequest(w, d, req) && HasKey(w, d)
    requires at.doc == d
    ensures Kept(cfg, at, w, w.(docs := w.docs[d := w.docs[d].(status := Uploaded, temp := Some(req))]))
  {
    DocWriteOk(cfg, at, w, d, w.docs[d].(status := Uploaded, temp := Some(req)));
  }

  lemma RequestKept(cfg: Config, w: World, req: nat, pc: RequestPc, o: Outcome)
    requires WorldOk(cfg, w) && RequestOk(cfg, w, req, pc)
    ensures Kept(cfg, ScopeOf(w, Request(req, pc)), w, UploadRequest.Step(cfg, w, req, pc, o).world)
  {
    hide UploadRequest.NewDocument;
    hide WorldOk, Grows, Framed;
    var at := ScopeOf(w, Request(req, pc));
    SameOk(cfg, at, w);
    match pc
    case Save => TempOk(cfg, at, w, req);
    case CreateDoc(plan) =>
      CreateOk(cfg, at, w, req, plan);
      var w' := w.(docs := w.docs + [UploadRequest.NewDocument(cfg, w.uploads[req], req, plan)]);
      LossOk(cfg, at, w', w'.LoseDoc(|w.docs|));
      KeptTrans(cfg, at, w, w', w'.LoseDoc(|w.docs|));
    case UpsertText(d, text) => TextOk(cfg, at, w, d, text);
    case Degrade(d) => DegradeOk(cfg, at, w, d, req);
    case Unlink(_) => CleanedOk(cfg, at, w, req, o);
    case Insert(d) =>
      if w.analyses.Accepts(d, req, None) { InsertLossOk(cfg, at, w, d, req, w.uploads[req].provider, None); }
    case MarkFind(d) => LossOk(cfg, at, w, w.LoseRun(d, req));
    case MarkWrite(d) =>
      LossOk(cfg, at, w, w.LoseRun(d, req));
      UpdateOk(cfg, at, w, d, req, Break(Transient));
    case MarkFailed(d) =>
      LossOk(cfg, at, w, w.LoseDoc(d));
      StatusOk(cfg, at, w, d, Failed);
    case Discard(_) => CleanedOk(cfg, at, w, req, o);
    case _ =>
  }

  lemma InsertLossOk(cfg: Config, at: Scope, w: World, d: nat, req: nat, provider: Provider, retryOf: Option<nat>)
    requires WorldOk(cfg, w) && w.analyses.Accepts(d, req, retryOf) && d in w.texts
    requires retryOf.Some? ==> ParentIs(w.analyses, d, retryOf.value, provider)
    requires at.doc == d
    ensures var w' := w.(analyses := w.analyses.Insert(d, req, provider, retryOf));
      Kept(cfg, at, w, w') && Kept(cfg, at, w, w'.LoseRun(d, req)) && RunOk(w'.analyses, w.analyses.next, d, req)
  {
    hide WorldOk, Grows;
    var w' := w.(analyses := w.analyses.Insert(d, req, provider, retryOf));
    InsertOk(cfg, at, w, d, req, provider, retryOf);
    LossOk(cfg, at, w', w'.LoseRun(d, req));
    KeptTrans(cfg, at, w, w', w'.LoseRun(d, req));
  }

  /** The steps after which the request relies on what they wrote. */
  predicate WritesAhead(pc: RequestPc) {
    pc.CreateDoc? || pc.UpsertText? || pc.Degrade? || pc.Insert?
  }

  /** Where a request goes next was already in order before the step. */
  lemma RequestNext(cfg: Config, w: World, req: nat, pc: RequestPc, o: Outcome)
    requires cfg.CollisionFree()
    requires WorldOk(cfg, w) && RequestOk(cfg, w, req, pc) && !WritesAhead(pc)
    ensures var m := UploadRequest.Step(cfg, w, req, pc, o);
      m.proc.Request? && m.proc.req == req && RequestOk(cfg, w, req, m.proc.rpc)
  {
    hide WorldOk, UploadRequest.StepAnalyse;
    match pc
    case Candidates => hide *; CandidatesOk(cfg, w, req, o);
    case Content(found) => hide *; ContentOk(cfg, w, req, found, o);
    case Find(_) => hide *; LookupNext(cfg, w, req, pc, o);
    case FindAgain(_) => hide *; LookupNext(cfg, w, req, pc, o);
    case Unlink(_) => hide *; AnalyseNext(cfg, w, req, pc, o);
    case Publish(_, _) => hide *; AnalyseNext(cfg, w, req, pc, o);
    case MarkFind(_) => hide *; AnalyseNext(cfg, w, req, pc, o);
    case MarkWrite(_) => hide *; AnalyseNext(cfg, w, req, pc, o);
    case _ =>
  }

  lemma AnalyseNext(cfg: Config, w: World, req: nat, pc: RequestPc, o: Outcome)
    requires RequestOk(cfg, w, req, pc)
    requires pc.Unlink? || pc.Publish? || pc.MarkFind? || pc.MarkWrite?
    ensures var m := UploadRequest.Step(cfg, w, req, pc, o);
      m.proc.Request? && m.proc.req == req && RequestOk(cfg, w, req, m.proc.rpc)
  {
  }

  lemma LookupNext(cfg: Config, w: World, req: nat, pc: RequestPc, o: Outcome)
    requires WorldOk(cfg, w) && RequestOk(cfg, w, req, pc)
    requires pc.Find? || pc.FindAgain?
    ensures var m := UploadRequest.Step(cfg, w, req, pc, o);
      m.proc.Request? && m.proc.req == req && RequestOk(cfg, w, req, m.proc.rpc)
  {
    hide WorldOk;
    ReadOk(cfg, w, pc.doc, req);
  }

  lemma RequestSpawned(cfg: Config, w: World, req: nat, pc: RequestPc, o: Outcome)
    requires WorldOk(cfg, w) && RequestOk(cfg, w, req, pc)
    ensures var m := UploadRequest.Step(cfg, w, req, pc, o);
      m.spawned.Some? ==> !WritesAhead(pc) && ProcOk(cfg, w, m.spawned.value)
  {
    hide WorldOk, UploadRequest.StepAnalyse;
    match pc
    case EnqueueFirst(d) => hide *; EnqueueSpawned(cfg, w, req, pc, o);
    case EnqueueExtract(d) => hide *; EnqueueSpawned(cfg, w, req, pc, o);
    case Publish(_, _) => hide *; PublishSpawned(cfg, w, req, pc, o);
    case _ => hide *; if !pc.EnqueueFirst? && !pc.EnqueueExtract? && !pc.Publish? { NothingSpawned(cfg, w, req, pc, o); }
  }

  lemma EnqueueSpawned(cfg: Config, w: World, req: nat, pc: RequestPc, o: Outcome)
    requires WorldOk(cfg, w) && RequestOk(cfg, w, req, pc) && (pc.EnqueueFirst? || pc.EnqueueExtract?)
    ensures var m := UploadRequest.Step(cfg, w, req, pc, o);
      m.spawned.Some? ==> !WritesAhead(pc) && ProcOk(cfg, w, m.spawned.value)
  {
    hide WorldOk, UploadRequest.StepAnalyse;
    ReadOk(cfg, w, pc.doc, req);
  }

  lemma PublishSpawned(cfg: Config, w: World, req: nat, pc: RequestPc, o: Outcome)
    requires RequestOk(cfg, w, req, pc) && pc.Publish?
    ensures var m := UploadRequest.Step(cfg, w, req, pc, o);
      m.spawned.Some? ==> !WritesAhead(pc) && ProcOk(cfg, w, m.spawned.value)
  {
  }

  lemma NothingSpawned(cfg: Config, w: World, req: nat, pc: RequestPc, o: Outcome)
    requires !pc.EnqueueFirst? && !pc.EnqueueExtract? && !pc.Publish?
    ensures UploadRequest.Step(cfg, w, req, pc, o).spawned.None?
  {
  }

  lemma RequestStepOk(cfg: Config, w: World, req: nat, pc: RequestPc, o: Outcome)
    requires cfg.CollisionFree()
    requires WorldOk(cfg, w) && RequestOk(cfg, w, req, pc)
    ensures StepOk(cfg, w, Request(req, pc), UploadRequest.Step(cfg, w, req, pc, o))
  {
    hide WorldOk, Grows, Framed;
    RequestKept(cfg, w, req, pc, o);
    RequestSpawned(cfg, w, req, pc, o);
    var m := UploadRequest.Step(cfg, w, req, pc, o);
    if WritesAhead(pc) {
      RequestOkStable(cfg, w, m.world, req, pc);
    } else {
      hide UploadRequest.Step, RequestOk;
      RequestNext(cfg, w, req, pc, o);
      RequestOkStable(cfg, w, m.world, req, m.proc.rpc);
      if m.spawned.Some? { ProcOkStable(cfg, w, m.world, m.spawned.value); }
    }
  }

  lemma CandidatesOk(cfg: Config, w: World, req: nat, o: Outcome)
    requires WorldOk(cfg, w) && RequestOk(cfg, w, req, Candidates)
    ensures var m := UploadRequest.Step(cfg, w, req, Candidates, o);
      m.proc.Request? && m.proc.req == req && RequestOk(cfg, w, req, m.proc.rpc) && m.spawned.None?
  {
    hide WorldOk;
    ReusableOk(cfg, w, w.docs, cfg.hash(w.uploads[req].bytes));
  }

  lemma ContentOk(cfg: Config, w: World, req: nat, found: seq<Candidate>, o: Outcome)
    requires cfg.CollisionFree()
    requires WorldOk(cfg, w) && RequestOk(cfg, w, req, Content(found))
    ensures var m := UploadRequest.Step(cfg, w, req, Content(found), o);
      m.proc.Request? && m.proc.req == req && RequestOk(cfg, w, req, m.proc.rpc) && m.spawned.None?
  {
    WithTextOk(found, w.texts);
    var hits := UploadRequest.WithText(found, w.texts);
    if hits != [] {
      CopiedText(cfg, w, UploadRequest.Pick(hits, o).doc, w.uploads[req]);
    }
  }

  lemma CancellerStepOk(cfg: Config, w: World, d: nat, pc: CancelPc, o: Outcome)
    requires WorldOk(cfg, w) && ProcOk(cfg, w, Canceller(d, pc))
    ensures StepOk(cfg, w, Canceller(d, pc), Services.StepCancel(w, d, pc, o))
  {
    hide WorldOk;
    var at := ScopeOf(w, Canceller(d, pc));
    SameOk(cfg, at, w);
    match pc
    case Start => if d < |w.docs| { ReadOk(cfg, w, d, w.docs[d].req); }
    case Write(_) => StatusOk(cfg, at, w, d, Cancelled);
    case Unlink(name) => CleanedOk(cfg, at, w, name, o);
    case Done =>
  }

  lemma DispatchOk(cfg: Config, at: Scope, w: World, d: nat, req: nat, pc: ApiPc, o: Outcome)
    requires WorldOk(cfg, w) && ApiOk(w, d, req, pc)
    requires pc.Publish? || pc.MarkFind? || pc.MarkWrite?
    requires at.doc == d
    ensures var (w', pc', sent) := Services.StepDispatch(w, d, req, pc, o);
      Kept(cfg, at, w, w') && ApiOk(w', d, req, pc') && (sent.Some? ==> ProcOk(cfg, w', sent.value))
  {
    hide WorldOk, Grows;
    SameOk(cfg, at, w);
    LossOk(cfg, at, w, w.LoseRun(d, req));
    UpdateOk(cfg, at, w, d, req, Break(Transient));
  }

  lemma CreatorStepOk(cfg: Config, w: World, d: nat, req: nat, provider: Provider, pc: ApiPc, o: Outcome)
    requires WorldOk(cfg, w) && ProcOk(cfg, w, Creator(d, req, provider, pc))
    ensures StepOk(cfg, w, Creator(d, req, provider, pc), Services.StepCreate(w, d, req, provider, pc, o))
  {
    hide WorldOk, Grows;
    var at := ScopeOf(w, Creator(d, req, provider, pc));
    SameOk(cfg, at, w);
    match pc
    case Insert(p) => if w.analyses.Accepts(d, req, None) { InsertLossOk(cfg, at, w, d, req, p, None); }
    case Publish(_) => DispatchOk(cfg, at, w, d, req, pc, o);
    case MarkFind(_) => DispatchOk(cfg, at, w, d, req, pc, o);
    case MarkWrite(_) => DispatchOk(cfg, at, w, d, req, pc, o);
    case _ =>
  }

  lemma RetrierStepOk(cfg: Config, w: World, d: nat, req: nat, parent: nat, pc: ApiPc, o: Outcome)
    requires WorldOk(cfg, w) && ProcOk(cfg, w, Retrier(d, req, parent, pc))
    ensures StepOk(cfg, w, Retrier(d, req, parent, pc), Services.StepRetry(w, d, req, parent, pc, o))
  {
    hide WorldOk, Grows, ParentOk;
    RetrierParentOk(cfg, w, d, req, parent, pc, o);
    var at := ScopeOf(w, Retrier(d, req, parent, pc));
    SameOk(cfg, at, w);
    match pc
    case Insert(p) =>
      InsertParentIs(w, d, parent, p);
      if w.analyses.Accepts(d, req, Some(parent)) { InsertLossOk(cfg, at, w, d, req, p, Some(parent)); }
    case Publish(_) => DispatchOk(cfg, at, w, d, req, pc, o);
    case MarkFind(_) => DispatchOk(cfg, at, w, d, req, pc, o);
    case MarkWrite(_) => DispatchOk(cfg, at, w, d, req, pc, o);
    case _ =>
  }

  lemma InsertParentIs(w: World, d: nat, parent: nat, provider: Provider)
    requires ParentOk(w, d, parent, ApiPc.Insert(provider))
    ensures ParentIs(w.analyses, d, parent, provider)
  {
  }

  /** A retry knows its parent while it works, and its child once it has inserted one. */
  lemma RetrierParentOk(cfg: Config, w: World, d: nat, req: nat, parent: nat, pc: ApiPc, o: Outcome)
    requires WorldOk(cfg, w) && ApiOk(w, d, req, pc) && ParentOk(w, d, parent, pc)
    ensures var m := Services.StepRetry(w, d, req, parent, pc, o);
      m.proc.Retrier? && ParentOk(m.world, d, parent, m.proc.apc)
  {
    hide WorldOk;
    if pc.Get? { ParentOkRead(cfg, w, d, parent); }
    if pc.Insert? { RowBelow(cfg, w, w.analyses.next); }
  }

  lemma ParentOkRead(cfg: Config, w: World, d: nat, parent: nat)
    requires WorldOk(cfg, w)
    ensures parent in w.analyses.rows && w.analyses.rows[parent].doc == d ==>
      ParentIs(w.analyses, d, parent, w.analyses.rows[parent].provider)
  {
  }

  lemma RemoverStepOk(cfg: Config, w: World, d: nat, target: nat, pc: RemovePc, o: Outcome)
    requires WorldOk(cfg, w) && ProcOk(cfg, w, Remover(d, target, pc))
    ensures StepOk(cfg, w, Remover(d, target, pc), Services.StepRemove(w, d, target, pc, o))
  {
    hide WorldOk, Grows;
    var at := ScopeOf(w, Remover(d, target, pc));
    SameOk(cfg, at, w);
    if pc.Delete? { DeleteOk(cfg, at, w, target); }
    if pc.Get? { RowBelow(cfg, w, target); }
  }

  lemma RowBelow(cfg: Config, w: World, a: nat)
    requires WorldOk(cfg, w)
    ensures a in w.analyses.rows ==> a < w.analyses.next
  {
  }

  lemma UpdatedOk(cfg: Config, at: Scope, w: World, d: nat, a: nat, req: nat, change: Change)
    requires WorldOk(cfg, w)
    requires change.Finish? ==> d in w.texts && change.report.text == w.texts[d]
    requires at.doc == d
    ensures Kept(cfg, at, w, Consumer.Updated(w, d, a, req, change))
  {
    hide WorldOk, Grows;
    UpdateOk(cfg, at, w, d, req, change);
    if a !in w.analyses.rows {
      LossOk(cfg, at, w, w.LoseRun(d, req));
      UpdateOk(cfg, at, w.LoseRun(d, req), d, req, change);
      KeptTrans(cfg, at, w, w.LoseRun(d, req), w.LoseRun(d, req).Update(d, req, change));
    }
  }

  lemma HandlerKept(cfg: Config, w: World, d: nat, a: nat, req: nat, pc: HandlerPc, n: nat, o: Outcome)
    requires WorldOk(cfg, w) && ProcOk(cfg, w, Handler(d, a, req, pc, n))
    ensures Kept(cfg, ScopeOf(w, Handler(d, a, req, pc, n)), w, Consumer.Step(w, d, a, req, pc, n, o).world)
  {
    hide WorldOk, Grows, Framed, Consumer.Updated;
    var at := ScopeOf(w, Handler(d, a, req, pc, n));
    SameOk(cfg, at, w);
    match pc
    case NoText => UpdatedOk(cfg, at, w, d, a, req, Break(Permanent));
    case WriteAnalyzing(_, _) => UpdatedOk(cfg, at, w, d, a, req, Begin);
    case WriteSuccess(report) => UpdatedOk(cfg, at, w, d, a, req, Change.Finish(report));
    case WriteRefused => UpdatedOk(cfg, at, w, d, a, req, Break(Permanent));
    case Recover => LossOk(cfg, at, w, w.LoseRun(d, req));
    case RecoverWrite => LossOk(cfg, at, w, w.LoseRun(d, req)); UpdateOk(cfg, at, w, d, req, Break(Transient));
    case _ =>
  }

  lemma HandlerNext(w: World, d: nat, a: nat, req: nat, pc: HandlerPc, n: nat, o: Outcome)
    requires HandlerOk(w, d, a, req, pc)
    ensures var m := Consumer.Step(w, d, a, req, pc, n, o);
      m.proc.Handler? && m.proc == Handler(d, a, req, m.proc.hpc, m.proc.deliveries) && HandlerOk(w, d, a, req, m.proc.hpc)
      && m.spawned.None?
  {
    hide Consumer.Updated, World.Update, World.LoseRun;
  }

  lemma HandlerStepOk(cfg: Config, w: World, d: nat, a: nat, req: nat, pc: HandlerPc, n: nat, o: Outcome)
    requires WorldOk(cfg, w) && ProcOk(cfg, w, Handler(d, a, req, pc, n))
    ensures StepOk(cfg, w, Handler(d, a, req, pc, n), Consumer.Step(w, d, a, req, pc, n, o))
  {
    hide WorldOk, Grows, Framed;
    HandlerKept(cfg, w, d, a, req, pc, n, o);
    var m := Consumer.Step(w, d, a, req, pc, n, o);
    HandlerNext(w, d, a, req, pc, n, o);
    HandlerOkStable(w, m.world, d, a, req, m.proc.hpc);
    hide Consumer.Step;
  }

  lemma StepKeepsSafety(cfg: Config, w: World, p: Proc, o: Outcome)
    requires cfg.CollisionFree() && WorldOk(cfg, w) && ProcOk(cfg, w, p)
    ensures StepOk(cfg, w, p, Step(cfg, w, p, o))
  {
    hide WorldOk, StepOk;
    match p
    case Request(req, pc) => RequestStepOk(cfg, w, req, pc, o);
    case Scanner(args, pc, left) => ScannerStepOk(cfg, w, args, pc, left, o);
    case Uploader(args, pc, left) => UploaderStepOk(cfg, w, args, pc, left, o);
    case Extractor(args, pc, left) => ExtractorStepOk(cfg, w, args, pc, left, o);
    case Canceller(d, pc) => CancellerStepOk(cfg, w, d, pc, o);
    case Creator(d, req, provider, pc) => CreatorStepOk(cfg, w, d, req, provider, pc, o);
    case Retrier(d, req, parent, pc) => RetrierStepOk(cfg, w, d, req, parent, pc, o);
    case Remover(d, target, pc) => RemoverStepOk(cfg, w, d, target, pc, o);
    case Handler(d, a, req, pc, n) => HandlerStepOk(cfg, w, d, a, req, pc, n, o);
  }

  ghost predicate Safe(cfg: Config, s: System) {
    WorldOk(cfg, s.world) && forall i :: 0 <= i < |s.procs| ==> ProcOk(cfg, s.world, s.procs[i])
  }

  /** A second delivery of a task or message may rely on the same facts. */
  lemma CopyOk(cfg: Config, w: World, p: Proc, count: nat)
    requires ProcOk(cfg, w, p) && (p.IsTask() || p.Handler?)
    ensures ProcOk(cfg, w, Copy(p, count))
  {
  }

  lemma ArriveOk(cfg: Config, s: System, e: Event)
    requires WorldOk(cfg, s.world) && Enabled(cfg, s, e) && !e.Act?
    requires |s.procs| !in s.world.uploads
    ensures WorldOk(cfg, Arrive(cfg, s, e)) && Grows(s.world, Arrive(cfg, s, e))
  {
    hide Table.Valid, KinOk, GateOk, RowsOk, TableGrows;
    var w, w' := s.world, Arrive(cfg, s, e);
    assert Extends(w.uploads, w'.uploads);
    assert TableGrows(w.analyses, w'.analyses) by { SameTableGrows(w.analyses); }
  }

  lemma SameTableGrows(t: Table)
    ensures TableGrows(t, t)
  {
  }

  /** Requests are numbered by their position, so the number of the next one is not in use. */
  ghost predicate Numbered(s: System) {
    forall n <- s.world.uploads :: n < |s.procs|
  }

  lemma ApplyKeepsSafety(cfg: Config, s: System, e: Event)
    requires cfg.CollisionFree() && Safe(cfg, s) && Numbered(s) && Enabled(cfg, s, e)
    ensures Safe(cfg, Apply(cfg, s, e)) && Numbered(Apply(cfg, s, e))
    ensures Grows(s.world, Apply(cfg, s, e).world)
  {
    hide WorldOk, ProcOk, Grows;
    var s' := Apply(cfg, s, e);
    if e.Act? {
      StepKeepsSafety(cfg, s.world, s.procs[e.i], e.o);
    } else {
      ArriveOk(cfg, s, e);
      StartedOk(cfg, s, e);
    }
    forall i | 0 <= i < |s.procs| ensures ProcOk(cfg, s'.world, s.procs[i]) {
      ProcOkStable(cfg, s.world, s'.world, s.procs[i]);
    }
  }

  lemma StartedOk(cfg: Config, s: System, e: Event)
    requires Safe(cfg, s) && Numbered(s) && Enabled(cfg, s, e) && !e.Act?
    ensures ProcOk(cfg, Arrive(cfg, s, e), Started(s, e))
  {
    if e.Duplicate? {
      CopyOk(cfg, s.world, s.procs[e.i], e.count);
    }
  }

  lemma {:induction false} RunIsSafe(cfg: Config, s: System, es: seq<Event>)
    requires cfg.CollisionFree() && Safe(cfg, s) && Numbered(s) && Feasible(cfg, s, es)
    ensures Safe(cfg, Run(cfg, s, es)) && Numbered(Run(cfg, s, es))
    ensures Grows(s.world, Run(cfg, s, es).world)
    decreases |es|
  {
    hide WorldOk, ProcOk, Grows, Enabled;
    if es == [] {
      SameOk(cfg, Scope(0, None), s.world);
    } else {
      var s' := Apply(cfg, s, es[0]);
      ApplyKeepsSafety(cfg, s, es[0]);
      RunIsSafe(cfg, s', es[1..]);
      GrowsTrans(s.world, s'.world, Run(cfg, s', es[1..]).world);
    }
  }
}

/** Temp files. A file is removed or handed on by whoever works with it, as long as the tasks of one document do not
    overlap; cancellations, handlers and requests on analyses may interleave with them freely. */
module Temps {
  import opened Types
  import opened AnalysisTable
  import opened Pipeline
  import opened BaseTask
  import opened Machine
  import opened Rules
  import opened Invariant
  import opened Safety
  import opened Progress
  import opened Idempotence
  import ScanTask
  import UploadTask
  import ExtractTask
  import UploadRequest
  import Services
  import Consumer

  /** The temp file is gone, or a failed unlink left it behind. */
  ghost predicate Clear(w: World, n: nat) {
    n in w.temps ==> n in w.leaked
  }

  predicate Unstored(status: DocumentStatus) {
    status.Created? || status.Scanning? || status.Uploading?
  }

  /** The document is past its upload, or finished. */
  ghost predicate Settled(w: World, d: nat) {
    d < |w.docs| && !Unstored(w.docs[d].status)
  }

  /** What a request or task has seen and acts upon. */
  ghost predicate Sees(w: World, p: Proc) {
    match p
    case Request(req, pc) => RequestSees(w, req, pc)
    case Scanner(args, pc, _) => pc.WriteCancelled? ==> args.req !in w.temps
    case Uploader(args, pc, _) => (pc.WriteCancelled? ==> args.req !in w.temps) && (pc.Enqueue? ==> Settled(w, args.doc))
    case Extractor(args, pc, _) => ExtractSees(w, args, pc)
    case _ => true
  }

  ghost predicate RequestSees(w: World, req: nat, pc: RequestPc) {
    match pc
    case EnqueueExtract(d) => Settled(w, d)
    case Find(_) => Clear(w, req)
    case Insert(_) => Clear(w, req)
    case FindAgain(_) => Clear(w, req)
    case Publish(_, _) => Clear(w, req)
    case _ => true
  }

  ghost predicate ExtractSees(w: World, args: Args, pc: ExtractPc) {
    match pc
    case CheckPath(_) => Settled(w, args.doc)
    case Restore(_, _) => Settled(w, args.doc)
    case WriteExtracting(_) => Settled(w, args.doc)
    case Extract(_, _) => Settled(w, args.doc)
    case Find => Clear(w, args.req)
    case Insert => Clear(w, args.req)
    case FindAgain => Clear(w, args.req)
    case Publish(_) => Clear(w, args.req)
    case _ => true
  }

  // --- The process itself ---

  lemma ScannerSees(cfg: Config, w: World, args: Args, pc: ScanPc, left: nat, o: Outcome)
    ensures var m := ScanTask.Step(cfg, w, args, pc, left, o); Sees(m.world, m.proc)
  {
  }

  lemma UploaderSees(w: World, args: Args, pc: UploadPc, left: nat, o: Outcome)
    requires args.doc < |w.docs|
    ensures var m := UploadTask.Step(w, args, pc, left, o); Sees(m.world, m.proc)
  {
  }

  lemma ExtractorSees(cfg: Config, w: World, args: Args, pc: ExtractPc, left: nat, o: Outcome)
    requires ExtractSees(w, args, pc)
    ensures var m := ExtractTask.Step(cfg, w, args, pc, left, o);
      m.proc.Extractor? && m.proc.args == args && ExtractSees(m.world, args, m.proc.epc)
  {
    hide ExtractTask.StepDispatch, ExtractTask.StepFailure;
    if ExtractTask.Dispatching(pc) {
      hide *;
      DispatchSees(cfg, w, args, pc, left, o);
    } else if pc.ReadExtracted? || pc.MarkFind? || pc.MarkWrite? || pc.Tail? {
      hide *;
      FailureSees(cfg, w, args, pc, left, o);
    }
  }

  lemma DispatchSees(cfg: Config, w: World, args: Args, pc: ExtractPc, left: nat, o: Outcome)
    requires ExtractTask.Dispatching(pc) && ExtractSees(w, args, pc)
    ensures var m := ExtractTask.Step(cfg, w, args, pc, left, o);
      m.proc.Extractor? && m.proc.args == args && ExtractSees(m.world, args, m.proc.epc)
  {
    hide ExtractTask.StepFailure, Table.Insert;
  }

  lemma FailureSees(cfg: Config, w: World, args: Args, pc: ExtractPc, left: nat, o: Outcome)
    requires pc.ReadExtracted? || pc.MarkFind? || pc.MarkWrite? || pc.Tail?
    ensures var m := ExtractTask.Step(cfg, w, args, pc, left, o);
      m.proc.Extractor? && m.proc.args == args && ExtractSees(m.world, args, m.proc.epc)
  {
    hide ExtractTask.StepDispatch, Table.Update, StepTail;
  }

  lemma RequestSeesStep(cfg: Config, w: World, req: nat, pc: RequestPc, o: Outcome)
    requires RequestSees(w, req, pc)
    requires pc.Degrade? ==> pc.doc < |w.docs|
    ensures var m := UploadRequest.Step(cfg, w, req, pc, o);
      m.proc.Request? && m.proc.req == req && RequestSees(m.world, req, m.proc.rpc)
  {
    hide UploadRequest.StepAnalyse;
    if pc.Unlink? || pc.Find? || pc.Insert? || pc.FindAgain? || pc.Publish? || pc.MarkFind? || pc.MarkWrite? {
      hide *;
      AnalyseSees(cfg, w, req, pc, o);
    } else if pc.UpsertText? || pc.Degrade? {
      hide *;
      CopySees(cfg, w, req, pc, o);
    }
  }

  lemma AnalyseSees(cfg: Config, w: World, req: nat, pc: RequestPc, o: Outcome)
    requires RequestSees(w, req, pc)
    requires pc.Unlink? || pc.Find? || pc.Insert? || pc.FindAgain? || pc.Publish? || pc.MarkFind? || pc.MarkWrite?
    ensures var m := UploadRequest.Step(cfg, w, req, pc, o);
      m.proc.Request? && m.proc.req == req && RequestSees(m.world, req, m.proc.rpc)
  {
    hide Table.Insert, Table.Update;
  }

  lemma CopySees(cfg: Config, w: World, req: nat, pc: RequestPc, o: Outcome)
    requires pc.UpsertText? || (pc.Degrade? && pc.doc < |w.docs|)
    ensures var m := UploadRequest.Step(cfg, w, req, pc, o);
      m.proc.Request? && m.proc.req == req && RequestSees(m.world, req, m.proc.rpc)
  {
  }

  lemma StepSees(cfg: Config, w: World, p: Proc, o: Outcome)
    requires ProcOk(cfg, w, p) && Sees(w, p)
    ensures var m := Step(cfg, w, p, o); Sees(m.world, m.proc)
  {
    hide UploadRequest.Step, ScanTask.Step, UploadTask.Step, ExtractTask.Step, Consumer.Step;
    hide Services.StepCancel, Services.StepCreate, Services.StepRetry, Services.StepRemove;
    match p
    case Request(req, pc) => RequestSeesStep(cfg, w, req, pc, o);
    case Scanner(args, pc, left) => ScannerSees(cfg, w, args, pc, left, o);
    case Uploader(args, pc, left) => UploaderSees(w, args, pc, left, o);
    case Extractor(args, pc, left) => ExtractorSees(cfg, w, args, pc, left, o);
    case _ => OffFileStays(cfg, w, p, o);
  }

  lemma RestSees(w: World, p: Proc)
    requires !p.Running()
    ensures Sees(w, p)
  {
  }

  // --- Cancellations, handlers and requests on analyses do no harm ---

  lemma OffFileStays(cfg: Config, w: World, p: Proc, o: Outcome)
    requires !OnFile(p)
    ensures !OnFile(Step(cfg, w, p, o).proc)
  {
    hide UploadRequest.Step, ScanTask.Step, UploadTask.Step, ExtractTask.Step, Consumer.Step;
    hide Services.StepCancel, Services.StepCreate, Services.StepRetry, Services.StepRemove;
    match p
    case Canceller(d, pc) => CancellerHarmless(w, d, pc, o);
    case Creator(d, req, provider, pc) => CreatorStays(w, d, req, provider, pc, o);
    case Retrier(d, req, parent, pc) => RetrierStays(w, d, req, parent, pc, o);
    case Remover(d, target, pc) => RemoverHarmless(w, d, target, pc, o);
    case Handler(d, a, req, pc, n) => HandlerStays(w, d, a, req, pc, n, o);
    case _ =>
  }

  /** No document goes back before its upload, and no temp file appears. */
  ghost predicate Harmless(w: World, w': World) {
    && |w'.docs| == |w.docs|
    && (forall d :: 0 <= d < |w.docs| && !Unstored(w.docs[d].status) ==> !Unstored(w'.docs[d].status))
    && (forall n <- w'.temps :: n in w.temps)
    && w.leaked <= w'.leaked
  }

  lemma CancellerHarmless(w: World, d: nat, pc: CancelPc, o: Outcome)
    ensures var m := Services.StepCancel(w, d, pc, o); m.proc.Canceller? && Harmless(w, m.world)
  {
  }

  lemma CreatorHarmless(w: World, d: nat, req: nat, provider: Provider, pc: ApiPc, o: Outcome)
    ensures Harmless(w, Services.StepCreate(w, d, req, provider, pc, o).world)
  {
    hide Table.Insert, Table.Update, Harmless;
    SameIsHarmless(w, Services.StepCreate(w, d, req, provider, pc, o).world);
  }

  lemma SameIsHarmless(w: World, w': World)
    requires w'.docs == w.docs && w'.temps == w.temps && w'.leaked == w.leaked
    ensures Harmless(w, w')
  {
  }

  lemma RetrierHarmless(w: World, d: nat, req: nat, parent: nat, pc: ApiPc, o: Outcome)
    ensures Harmless(w, Services.StepRetry(w, d, req, parent, pc, o).world)
  {
    hide Table.Insert, Table.Update, Harmless;
    SameIsHarmless(w, Services.StepRetry(w, d, req, parent, pc, o).world);
  }

  lemma RemoverHarmless(w: World, d: nat, target: nat, pc: RemovePc, o: Outcome)
    ensures var m := Services.StepRemove(w, d, target, pc, o); m.proc.Remover? && Harmless(w, m.world)
  {
    hide Table.Delete;
  }

  lemma HandlerHarmless(w: World, d: nat, a: nat, req: nat, pc: HandlerPc, n: nat, o: Outcome)
    ensures Harmless(w, Consumer.Step(w, d, a, req, pc, n, o).world)
  {
    hide Consumer.Step;
    HandlerOnlyRuns(w, d, a, req, pc, n, o);
  }

  lemma OffFileIsHarmless(cfg: Config, w: World, p: Proc, o: Outcome)
    requires !OnFile(p)
    ensures Harmless(w, Step(cfg, w, p, o).world)
  {
    hide UploadRequest.Step, ScanTask.Step, UploadTask.Step, ExtractTask.Step, Consumer.Step, Harmless;
    hide Services.StepCancel, Services.StepCreate, Services.StepRetry, Services.StepRemove;
    match p
    case Canceller(d, pc) => CancellerHarmless(w, d, pc, o);
    case Creator(d, req, provider, pc) => CreatorHarmless(w, d, req, provider, pc, o);
    case Retrier(d, req, parent, pc) => RetrierHarmless(w, d, req, parent, pc, o);
    case Remover(d, target, pc) => RemoverHarmless(w, d, target, pc, o);
    case Handler(d, a, req, pc, n) => HandlerHarmless(w, d, a, req, pc, n, o);
    case _ =>
  }

  lemma HarmlessSees(w: World, w': World, q: Proc)
    requires Harmless(w, w') && Sees(w, q)
    ensures Sees(w', q)
  {
  }

  // --- Tasks of other documents ---

  /** Different documents come from different requests. */
  ghost predicate Distinct(docs: seq<Document>) {
    forall d, e :: 0 <= d < e < |docs| ==> docs[d].req != docs[e].req
  }

  /** No document was created by this request. */
  ghost predicate Unused(docs: seq<Document>, req: nat) {
    forall d :: 0 <= d < |docs| ==> docs[d].req != req
  }

  ghost predicate Fresh(docs: seq<Document>, p: Proc) {
    p.Request? && p.Doc().None? && !p.Ended() ==> Unused(docs, p.req)
  }

  /** The document of a process belongs to the request it works for. */
  lemma RequestDoc(cfg: Config, w: World, req: nat, pc: RequestPc)
    requires RequestOk(cfg, w, req, pc)
    ensures Request(req, pc).Doc().Some? ==> OfRequest(w, Request(req, pc).Doc().value, req)
  {
  }

  lemma ExtractDoc(cfg: Config, w: World, args: Args, pc: ExtractPc)
    requires ExtractOk(cfg, w, args, pc)
    ensures OfRequest(w, args.doc, args.req)
  {
  }

  /** The number of the temp file a request or task works with. */
  function FileOf(p: Proc): nat
    requires OnFile(p)
  {
    match p
    case Request(req, _) => req
    case Scanner(args, _, _) => args.req
    case Uploader(args, _, _) => args.req
    case Extractor(args, _, _) => args.req
  }

  lemma OwnDoc(cfg: Config, w: World, p: Proc)
    requires ProcOk(cfg, w, p) && OnFile(p) && p.Doc().Some?
    ensures OfRequest(w, p.Doc().value, FileOf(p))
  {
    hide RequestOk, ExtractOk, HandlerOk, ApiOk;
    match p
    case Request(req, pc) => RequestDoc(cfg, w, req, pc);
    case Extractor(args, pc, _) => ExtractDoc(cfg, w, args, pc);
    case _ =>
  }

  /** The scope of a task touches neither the document nor the file of a task of another document. */
  lemma Apart(cfg: Config, w: World, p: Proc, q: Proc)
    requires ProcOk(cfg, w, p) && ProcOk(cfg, w, q) && OnFile(p) && OnFile(q) && !p.Ended()
    requires Distinct(w.docs) && Fresh(w.docs, p)
    requires q.Doc().Some? && q.Doc() != p.Doc()
    ensures var at := ScopeOf(w, p); q.Doc().value < |w.docs| && q.Doc().value != at.doc && at.temp != Some(FileOf(q))
  {
    hide ProcOk;
    OwnDoc(cfg, w, q);
    if p.Doc().Some? { OwnDoc(cfg, w, p); }
  }

  lemma ApartSees(cfg: Config, at: Scope, w: World, w': World, q: Proc)
    requires Framed(at, w, w') && Sees(w, q) && ProcOk(cfg, w, q) && OnFile(q) && q.Doc().Some?
    requires q.Doc().value < |w.docs| && q.Doc().value != at.doc && at.temp != Some(FileOf(q))
    ensures Sees(w', q)
  {
    hide OtherRows, RequestOk, ExtractOk;
  }

  // --- Who keeps a file ---

  /** `p` will remove the temp file `n`, or hand it to a task that will. An extraction that finds the object not
      stored yet leaves the file to the task that is still going to store it. */
  ghost predicate Keeps(docs: seq<Document>, p: Proc, n: nat) {
    match p
    case Request(req, pc) => req == n && !pc.Done?
    case Scanner(args, pc, _) => args.req == n && !pc.Done?
    case Uploader(args, pc, _) => args.req == n && !pc.Done?
    case Extractor(args, pc, _) =>
      args.req == n && !pc.Done? && args.doc < |docs| && !Unstored(docs[args.doc].status)
    case _ => false
  }

  ghost predicate SpawnKeeps(docs: seq<Document>, p: Option<Proc>, n: nat) {
    p.Some? && Keeps(docs, p.value, n)
  }

  /** What a step of `p` means for the temp file `n`. */
  ghost predicate TempStepOk(w: World, p: Proc, m: Move, n: nat) {
    Clear(w, n) || Keeps(w.docs, p, n) ==>
      Clear(m.world, n) || Keeps(m.world.docs, m.proc, n) || SpawnKeeps(m.world.docs, m.spawned, n)
  }

  lemma ScannerTemp(cfg: Config, w: World, args: Args, pc: ScanPc, left: nat, o: Outcome)
    requires Sees(w, Scanner(args, pc, left))
    ensures TempStepOk(w, Scanner(args, pc, left), ScanTask.Step(cfg, w, args, pc, left, o), args.req)
  {
  }

  lemma UploaderTemp(w: World, args: Args, pc: UploadPc, left: nat, o: Outcome)
    requires Sees(w, Uploader(args, pc, left))
    ensures TempStepOk(w, Uploader(args, pc, left), UploadTask.Step(w, args, pc, left, o), args.req)
  {
  }

  lemma ExtractorTemp(cfg: Config, w: World, args: Args, pc: ExtractPc, left: nat, o: Outcome)
    requires ExtractSees(w, args, pc)
    ensures TempStepOk(w, Extractor(args, pc, left), ExtractTask.Step(cfg, w, args, pc, left, o), args.req)
  {
    hide ExtractTask.Step, TempStepOk, ExtractSees;
    if ExtractTask.Dispatching(pc) {
      DispatchTemp(cfg, w, args, pc, left, o);
    } else if pc.Tail? {
      TailTemp(cfg, w, args, pc, left, o);
    } else if pc.ReadExtracted? || pc.MarkFind? || pc.MarkWrite? {
      FailureTemp(cfg, w, args, pc, left, o);
    } else if pc.Restore? {
      RestoreTemp(cfg, w, args, pc, left, o);
    } else if pc.Start? || pc.CheckPath? || pc.Extract? || pc.Upsert? || pc.Done? {
      ReadingTemp(cfg, w, args, pc, left, o);
    } else if pc.Unlink? {
      UnlinkTemp(cfg, w, args, pc, left, o);
    } else {
      WritingTemp(cfg, w, args, pc, left, o);
    }
  }

  lemma RestoreTemp(cfg: Config, w: World, args: Args, pc: ExtractPc, left: nat, o: Outcome)
    requires pc.Restore? && ExtractSees(w, args, pc)
    ensures TempStepOk(w, Extractor(args, pc, left), ExtractTask.Step(cfg, w, args, pc, left, o), args.req)
  {
    hide ExtractTask.StepDispatch, ExtractTask.StepFailure;
  }

  lemma ReadingTemp(cfg: Config, w: World, args: Args, pc: ExtractPc, left: nat, o: Outcome)
    requires pc.Start? || pc.CheckPath? || pc.Extract? || pc.Upsert? || pc.Done?
    ensures TempStepOk(w, Extractor(args, pc, left), ExtractTask.Step(cfg, w, args, pc, left, o), args.req)
  {
    hide ExtractTask.StepDispatch, ExtractTask.StepFailure;
  }

  lemma UnlinkTemp(cfg: Config, w: World, args: Args, pc: ExtractPc, left: nat, o: Outcome)
    requires pc.Unlink?
    ensures TempStepOk(w, Extractor(args, pc, left), ExtractTask.Step(cfg, w, args, pc, left, o), args.req)
  {
    hide ExtractTask.StepDispatch, ExtractTask.StepFailure;
  }

  lemma WritingTemp(cfg: Config, w: World, args: Args, pc: ExtractPc, left: nat, o: Outcome)
    requires pc.WriteExtracting? || pc.WriteExtracted? || pc.WriteFailed?
    ensures TempStepOk(w, Extractor(args, pc, left), ExtractTask.Step(cfg, w, args, pc, left, o), args.req)
  {
    hide ExtractTask.Step, TempStepOk;
    if pc.WriteExtracting? {
      StatusTemp(cfg, w, args, pc, left, o);
    } else {
      FinishTemp(cfg, w, args, pc, left, o);
    }
  }

  lemma StatusTemp(cfg: Config, w: World, args: Args, pc: ExtractPc, left: nat, o: Outcome)
    requires pc.WriteExtracting?
    ensures TempStepOk(w, Extractor(args, pc, left), ExtractTask.Step(cfg, w, args, pc, left, o), args.req)
  {
    hide ExtractTask.StepDispatch, ExtractTask.StepFailure;
  }

  lemma FinishTemp(cfg: Config, w: World, args: Args, pc: ExtractPc, left: nat, o: Outcome)
    requires pc.WriteExtracted? || pc.WriteFailed?
    ensures TempStepOk(w, Extractor(args, pc, left), ExtractTask.Step(cfg, w, args, pc, left, o), args.req)
  {
    hide ExtractTask.StepDispatch, ExtractTask.StepFailure;
  }

  lemma DispatchTemp(cfg: Config, w: World, args: Args, pc: ExtractPc, left: nat, o: Outcome)
    requires ExtractTask.Dispatching(pc) && ExtractSees(w, args, pc)
    ensures TempStepOk(w, Extractor(args, pc, left), ExtractTask.Step(cfg, w, args, pc, left, o), args.req)
  {
    hide ExtractTask.StepFailure, Table.Insert;
  }

  lemma TailTemp(cfg: Config, w: World, args: Args, pc: ExtractPc, left: nat, o: Outcome)
    requires pc.Tail?
    ensures TempStepOk(w, Extractor(args, pc, left), ExtractTask.Step(cfg, w, args, pc, left, o), args.req)
  {
    hide ExtractTask.StepDispatch;
  }

  /** The failure callback touches files and documents only at its end. */
  lemma FailureElsewhere(cfg: Config, w: World, args: Args, pc: ExtractPc, left: nat, o: Outcome)
    requires pc.ReadExtracted? || pc.MarkFind? || pc.MarkWrite?
    ensures var m := ExtractTask.Step(cfg, w, args, pc, left, o);
      && m.world.docs == w.docs && m.world.temps == w.temps && m.world.leaked == w.leaked
      && m.proc.Extractor? && m.proc.args == args && !m.proc.epc.Done?
  {
    hide ExtractTask.StepDispatch, Table.Update;
  }

  lemma FailureTemp(cfg: Config, w: World, args: Args, pc: ExtractPc, left: nat, o: Outcome)
    requires pc.ReadExtracted? || pc.MarkFind? || pc.MarkWrite?
    ensures TempStepOk(w, Extractor(args, pc, left), ExtractTask.Step(cfg, w, args, pc, left, o), args.req)
  {
    hide ExtractTask.Step;
    FailureElsewhere(cfg, w, args, pc, left, o);
  }

  lemma RequestTemp(cfg: Config, w: World, req: nat, pc: RequestPc, o: Outcome)
    requires RequestOk(cfg, w, req, pc) && RequestSees(w, req, pc)
    ensures TempStepOk(w, Request(req, pc), UploadRequest.Step(cfg, w, req, pc, o), req)
  {
    hide Table.Insert, Table.Update;
  }

  lemma StepKeepsTemp(cfg: Config, w: World, p: Proc, o: Outcome, n: nat)
    requires ProcOk(cfg, w, p) && Sees(w, p) && Framed(ScopeOf(w, p), w, Step(cfg, w, p, o).world)
    ensures TempStepOk(w, p, Step(cfg, w, p, o), n)
  {
    hide UploadRequest.Step, ScanTask.Step, UploadTask.Step, ExtractTask.Step, Services.StepCancel, Services.StepCreate;
    hide Services.StepRetry, Services.StepRemove, Consumer.Step, RequestOk, ExtractOk, HandlerOk, ApiOk;
    hide OtherRows, OtherDocs;
    if !OnFile(p) {
      OffFileIsHarmless(cfg, w, p, o);
    } else if FileOf(p) == n {
      match p
      case Request(req, pc) => RequestTemp(cfg, w, req, pc, o);
      case Scanner(args, pc, left) => ScannerTemp(cfg, w, args, pc, left, o);
      case Uploader(args, pc, left) => UploaderTemp(w, args, pc, left, o);
      case Extractor(args, pc, left) => ExtractorTemp(cfg, w, args, pc, left, o);
    }
  }
}

/** No analysis gets stuck: at every moment of every interleaving an unfinished analysis either waits for the
    text of its document, or some process still has to publish it, handle it, or mark it failed. */
module Runs {
  import opened Types
  import opened AnalysisTable
  import opened Pipeline
  import opened BaseTask
  import opened Machine
  import opened Invariant
  import ScanTask
  import UploadTask
  import ExtractTask
  import UploadRequest
  import Services
  import Consumer

  /** A process that created or looked up the analysis of this key and has yet to publish it or mark it failed. */
  predicate Publishes(p: Proc, a: nat, row: Analysis) {
    match p
    case Request(req, pc) =>
      (match pc
       case Publish(_, run) => run == a
       case MarkFind(d) => row.doc == d && row.req == req
       case MarkWrite(d) => row.doc == d && row.req == req
       case _ => false)
    case Creator(d, req, _, pc) => PublishesApi(d, req, pc, a, row)
    case Retrier(d, req, _, pc) => PublishesApi(d, req, pc, a, row)
    case _ => false
  }

  predicate PublishesApi(d: nat, req: nat, pc: ApiPc, a: nat, row: Analysis) {
    match pc
    case Publish(run) => run == a
    case MarkFind(_) => row.doc == d && row.req == req
    case MarkWrite(_) => row.doc == d && row.req == req
    case _ => false
  }

  /** A message for `a`, queued or being handled. */
  predicate Handles(p: Proc, a: nat) {
    p.Handler? && p.analysis == a && !p.hpc.Done?
  }

  /** An extraction of the document, which ends with the analysis of the upload request. */
  predicate Dispatches(p: Proc, a: nat, row: Analysis) {
    && p.Extractor? && p.args.doc == row.doc
    && !p.epc.Done? && !p.epc.Tail?
    && (p.epc.Publish? ==> p.epc.run == a)
  }

  /** The analysis that belongs to the upload of its document. */
  predicate OfUpload(docs: seq<Document>, row: Analysis) {
    row.doc < |docs| && row.req == docs[row.doc].req
  }

  /** Nobody has to act on this analysis: it is finished, it was given up, or its document has no text yet. */
  ghost predicate Settled(docs: seq<Document>, lost: set<nat>, a: nat, row: Analysis) {
    || row.Terminal()
    || a in lost
    || (row.status == Queued && OfUpload(docs, row) && docs[row.doc].status != Extracted)
  }

  /** `p` will move this analysis on. */
  ghost predicate Works(docs: seq<Document>, p: Proc, a: nat, row: Analysis) {
    || Handles(p, a)
    || (row.status == Queued && (Publishes(p, a, row) || (OfUpload(docs, row) && Dispatches(p, a, row))))
  }

  ghost predicate SpawnWorks(docs: seq<Document>, p: Option<Proc>, a: nat, row: Analysis) {
    p.Some? && Works(docs, p.value, a, row)
  }

  /** A process that has to act on an analysis acts, or hands it over, or is found again at its next call.
      An analysis that leaves the state `queued` is finished or in the hands of its message. */
  ghost predicate RunStepOk(w: World, p: Proc, m: Move, a: nat) {
    a in m.world.analyses.rows ==>
      var row' := m.world.analyses.rows[a];
      && ((a in w.analyses.rows ==>
            Settled(w.docs, w.lostRuns, a, w.analyses.rows[a]) || Works(w.docs, p, a, w.analyses.rows[a])) ==>
          || Settled(m.world.docs, m.world.lostRuns, a, row')
          || Works(m.world.docs, m.proc, a, row')
          || SpawnWorks(m.world.docs, m.spawned, a, row'))
      && (a in w.analyses.rows && w.analyses.rows[a].status == Queued && row'.status != Queued ==>
          row'.Terminal() || a in m.world.lostRuns || Handles(m.proc, a))
  }

  /** What the index says about analysis `a` and about the key the stepping process looks up. */
  ghost predicate Keyed(w: World, a: nat, d: nat, req: nat) {
    var t := w.analyses;
    && (a in t.rows ==> a < t.next && t.rows[a].doc < |w.docs| && t.Find(t.rows[a].doc, t.rows[a].req) == Some(a))
    && (t.Find(d, req).Some? ==>
          var b := t.Find(d, req).value; b in t.rows && t.rows[b].doc == d && t.rows[b].req == req)
  }

  /** A step that neither touches analysis `a` nor makes its document extracted. */
  ghost predicate Quiet(w: World, w': World, a: nat) {
    a in w'.analyses.rows ==>
      && a in w.analyses.rows && w'.analyses.rows[a] == w.analyses.rows[a]
      && (a in w.lostRuns ==> a in w'.lostRuns)
      && var d := w.analyses.rows[a].doc;
         d < |w.docs| ==> d < |w'.docs| && w'.docs[d].req == w.docs[d].req
                          && (w'.docs[d].status == Extracted ==> w.docs[d].status == Extracted)
  }

  lemma StatusQuiet(w: World, d: nat, status: DocumentStatus, a: nat)
    requires status != Extracted
    ensures Quiet(w, w.SetStatus(d, status), a) && Quiet(w, w.Finish(d, status), a)
  {
    if d < |w.docs| {
      DocQuiet(w, d, w.docs[d].(status := status), a);
      DocQuiet(w, d, w.docs[d].(status := status, temp := None), a);
    } else {
      ElsewhereQuiet(w, w, a);
    }
  }

  lemma DocQuiet(w: World, d: nat, doc: Document, a: nat)
    requires d < |w.docs| && doc.req == w.docs[d].req && doc.status != Extracted
    ensures Quiet(w, w.(docs := w.docs[d := doc]), a)
  {
  }

  /** What the writes to other components look like from the analyses. */
  lemma ElsewhereQuiet(w: World, w': World, a: nat)
    requires w' == w.(temps := w'.temps, objects := w'.objects, texts := w'.texts, clean := w'.clean,
                      lostDocs := w'.lostDocs, lostRuns := w'.lostRuns, leaked := w'.leaked)
    requires w.lostRuns <= w'.lostRuns
    ensures Quiet(w, w', a)
  {
  }

  lemma TailQuiet(w: World, args: Args, t: Tail, o: Outcome, a: nat)
    ensures Quiet(w, StepTail(w, args, t, o), a)
  {
    hide Quiet;
    StatusQuiet(w, args.doc, Failed, a);
    ElsewhereQuiet(w, StepTail(w, args, ReadStatus, o), a);
    ElsewhereQuiet(w, w.LoseDoc(args.doc), a);
    ElsewhereQuiet(w, Cleaned(w, args.req, o), a);
  }

  lemma ScannerQuiet(cfg: Config, w: World, args: Args, pc: ScanPc, left: nat, o: Outcome, a: nat)
    ensures Quiet(w, ScanTask.Step(cfg, w, args, pc, left, o).world, a)
  {
    hide Quiet, World.SetStatus, World.Finish;
    var d := args.doc;
    ElsewhereQuiet(w, w, a);
    match pc
    case WriteCancelled => StatusQuiet(w, d, Cancelled, a);
    case WriteScanning => StatusQuiet(w, d, Scanning, a);
    case WriteInfected => StatusQuiet(w, d, DocumentStatus.Infected, a);
    case WriteFailed => StatusQuiet(w, d, Failed, a);
    case Scan => ElsewhereQuiet(w, ScanTask.Step(cfg, w, args, pc, left, o).world, a);
    case Tail(t) => TailQuiet(w, args, t, o, a);
    case _ =>
  }

  lemma UploaderQuiet(w: World, args: Args, pc: UploadPc, left: nat, o: Outcome, a: nat)
    ensures Quiet(w, UploadTask.Step(w, args, pc, left, o).world, a)
  {
    hide Quiet, World.SetStatus, World.Finish;
    var d := args.doc;
    ElsewhereQuiet(w, w, a);
    match pc
    case WriteCancelled => StatusQuiet(w, d, Cancelled, a);
    case WriteUploading => StatusQuiet(w, d, Uploading, a);
    case Put => ElsewhereQuiet(w, UploadTask.Step(w, args, pc, left, o).world, a);
    case WriteUploaded => UploadedQuiet(w, d, args.req, a);
    case WriteFailed => StatusQuiet(w, d, Failed, a);
    case Tail(t) => TailQuiet(w, args, t, o, a);
    case _ =>
  }

  lemma UploadedQuiet(w: World, d: nat, key: nat, a: nat)
    ensures Quiet(w, UploadTask.SetUploaded(w, d, key), a)
  {
  }

  lemma CancellerQuiet(w: World, d: nat, pc: CancelPc, o: Outcome, a: nat)
    ensures Quiet(w, Services.StepCancel(w, d, pc, o).world, a)
  {
  }

  // --- The extraction task ---

  lemma LoseRunQuiet(w: World, d: nat, req: nat, a: nat)
    ensures Quiet(w, w.LoseRun(d, req), a)
    ensures Quiet(w, w.LoseDoc(d).LoseRun(d, req), a)
  {
  }

  predicate WritesRuns(pc: ExtractPc) {
    pc.WriteExtracted? || pc.Insert? || pc.MarkWrite?
  }

  lemma ExtractorQuiet(cfg: Config, w: World, args: Args, pc: ExtractPc, left: nat, o: Outcome, a: nat)
    requires !WritesRuns(pc)
    ensures Quiet(w, ExtractTask.Step(cfg, w, args, pc, left, o).world, a)
  {
    hide Quiet, World.SetStatus, World.Finish, World.LoseRun, World.LoseDoc;
    var d := args.doc;
    ElsewhereQuiet(w, w, a);
    match pc
    case WriteExtracting(_) => StatusQuiet(w, d, Extracting, a);
    case WriteFailed => StatusQuiet(w, d, Failed, a);
    case Restore(key, _) =>
      if key.Some? && key.value in w.objects {
        ElsewhereQuiet(w, w.(temps := w.temps[args.req := w.objects[key.value]]), a);
      }
    case Upsert(text) => ElsewhereQuiet(w, w.(texts := w.texts[d := text]), a);
    case Unlink => ElsewhereQuiet(w, Cleaned(w, args.req, o), a);
    case ReadExtracted => LoseRunQuiet(w, d, args.req, a);
    case MarkFind => LoseRunQuiet(w, d, args.req, a);
    case Tail(t) => TailQuiet(w, args, t, o, a);
    case _ =>
  }

  /** The extraction works on the document of the queued analysis `a`, which belongs to the upload request. */
  ghost predicate Expects(w: World, args: Args, a: nat, row: Analysis) {
    && OfRequest(w, args.doc, args.req) && row.doc == args.doc
    && w.analyses.Find(args.doc, args.req) == Some(a)
    && a in w.analyses.rows && w.analyses.rows[a] == row && row.status == Queued
  }

  /** It still will dispatch `a`, or hands it to a message, or gave it up, or the document is not extracted. */
  ghost predicate KeepsDispatching(m: Move, d: nat, a: nat, row: Analysis) {
    || Dispatches(m.proc, a, row)
    || (m.spawned.Some? && Handles(m.spawned.value, a))
    || a in m.world.lostRuns
    || (d < |m.world.docs| && m.world.docs[d].status != Extracted)
  }

  lemma DispatchDispatches(w: World, args: Args, pc: ExtractPc, left: nat, o: Outcome, a: nat, row: Analysis)
    requires ExtractTask.Dispatching(pc) && !pc.Insert? && Expects(w, args, a, row)
    requires Dispatches(Extractor(args, pc, left), a, row)
    ensures KeepsDispatching(ExtractTask.StepDispatch(w, args, pc, left, o), args.doc, a, row)
  {
  }

  lemma FailureDispatches(w: World, args: Args, pc: ExtractPc, left: nat, o: Outcome, a: nat, row: Analysis)
    requires Expects(w, args, a, row)
    requires pc.ReadExtracted? || pc.MarkFind?
    ensures KeepsDispatching(ExtractTask.StepFailure(w, args, pc, left, o), args.doc, a, row)
  {
  }

  lemma ExtractorDispatches(cfg: Config, w: World, args: Args, pc: ExtractPc, left: nat, o: Outcome, a: nat, row: Analysis)
    requires !WritesRuns(pc) && Expects(w, args, a, row)
    requires Dispatches(Extractor(args, pc, left), a, row)
    ensures KeepsDispatching(ExtractTask.Step(cfg, w, args, pc, left, o), args.doc, a, row)
  {
    hide ExtractTask.StepDispatch, ExtractTask.StepFailure;
    if ExtractTask.Dispatching(pc) {
      DispatchDispatches(w, args, pc, left, o, a, row);
    } else if pc.ReadExtracted? || pc.MarkFind? {
      FailureDispatches(w, args, pc, left, o, a, row);
    }
  }

  /** A quiet step of a process that does not itself work on `a`, or keeps working on it. */
  lemma QuietRuns(w: World, p: Proc, m: Move, a: nat)
    requires Quiet(w, m.world, a)
    requires a in w.analyses.rows && a in m.world.analyses.rows ==>
      var row := w.analyses.rows[a];
      && row.doc < |w.docs|
      && (Works(w.docs, p, a, row) ==>
           || Works(w.docs, m.proc, a, row) || SpawnWorks(w.docs, m.spawned, a, row)
           || Settled(m.world.docs, m.world.lostRuns, a, row))
    ensures RunStepOk(w, p, m, a)
  {
  }

  /** The rows after an insert. */
  lemma InsertedRow(t: Table, d: nat, req: nat, provider: Provider, retryOf: Option<nat>, a: nat)
    requires t.Accepts(d, req, retryOf)
    ensures var t' := t.Insert(d, req, provider, retryOf);
      a in t'.rows ==> if a == t.next then t'.rows[a] == Analysis(d, req, provider, Queued, None, None, None, retryOf)
                       else a in t.rows && t'.rows[a] == t.rows[a]
  {
  }

  lemma InsertedKey(t: Table, d: nat, req: nat, provider: Provider, retryOf: Option<nat>)
    requires t.Accepts(d, req, retryOf)
    ensures t.Insert(d, req, provider, retryOf).Find(d, req) == Some(t.next)
  {
  }

  lemma ExtractorInsertRuns(w: World, args: Args, left: nat, o: Outcome, a: nat)
    requires Keyed(w, a, args.doc, args.req) && OfRequest(w, args.doc, args.req)
    ensures RunStepOk(w, Extractor(args, ExtractPc.Insert, left), ExtractTask.StepDispatch(w, args, ExtractPc.Insert, left, o), a)
  {
    hide Table.Insert;
    if w.analyses.Accepts(args.doc, args.req, None) {
      InsertedRow(w.analyses, args.doc, args.req, args.provider, None, a);
    }
  }

  lemma ExtractorMarkRuns(w: World, args: Args, left: nat, o: Outcome, a: nat)
    requires Keyed(w, a, args.doc, args.req) && OfRequest(w, args.doc, args.req)
    ensures RunStepOk(w, Extractor(args, ExtractPc.MarkWrite, left),
                      ExtractTask.StepFailure(w, args, ExtractPc.MarkWrite, left, o), a)
  {
  }

  lemma ExtractorExtractedRuns(cfg: Config, w: World, args: Args, left: nat, o: Outcome, a: nat)
    requires Keyed(w, a, args.doc, args.req) && OfRequest(w, args.doc, args.req)
    ensures RunStepOk(w, Extractor(args, WriteExtracted, left),
                      ExtractTask.Step(cfg, w, args, WriteExtracted, left, o), a)
  {
  }

  lemma ExtractorRuns(cfg: Config, w: World, args: Args, pc: ExtractPc, left: nat, o: Outcome, a: nat)
    requires Keyed(w, a, args.doc, args.req) && OfRequest(w, args.doc, args.req)
    ensures RunStepOk(w, Extractor(args, pc, left), ExtractTask.Step(cfg, w, args, pc, left, o), a)
  {
    hide RunStepOk, ExtractTask.StepDispatch, ExtractTask.StepFailure;
    if pc.Insert? {
      ExtractorInsertRuns(w, args, left, o, a);
    } else if pc.MarkWrite? {
      ExtractorMarkRuns(w, args, left, o, a);
    } else if pc.WriteExtracted? {
      ExtractorExtractedRuns(cfg, w, args, left, o, a);
    } else {
      hide ExtractTask.Step;
      var p, m := Extractor(args, pc, left), ExtractTask.Step(cfg, w, args, pc, left, o);
      ExtractorQuiet(cfg, w, args, pc, left, o, a);
      if a in w.analyses.rows && Works(w.docs, p, a, w.analyses.rows[a]) {
        ExtractorDispatches(cfg, w, args, pc, left, o, a, w.analyses.rows[a]);
      }
      QuietRuns(w, p, m, a);
    }
  }

  // --- The upload request ---

  predicate RequestWritesRuns(pc: RequestPc) {
    pc.Insert? || pc.MarkWrite?
  }

  lemma RequestQuiet(cfg: Config, w: World, req: nat, pc: RequestPc, o: Outcome, a: nat)
    requires !RequestWritesRuns(pc)
    ensures Quiet(w, UploadRequest.Step(cfg, w, req, pc, o).world, a)
  {
    hide Quiet, World.Finish, World.LoseRun;
    ElsewhereQuiet(w, w, a);
    match pc
    case Save => ElsewhereQuiet(w, w.(temps := w.temps[req := w.File(req).bytes]), a);
    case CreateDoc(plan) => CreateQuiet(w, UploadRequest.NewDocument(cfg, w.File(req), req, plan), a);
    case MarkFailed(d) => StatusQuiet(w, d, Failed, a); ElsewhereQuiet(w, w.LoseDoc(d), a);
    case UpsertText(d, text) => ElsewhereQuiet(w, w.(texts := w.texts[d := text]), a);
    case Degrade(d) => DegradeQuiet(w, d, req, a);
    case Unlink(_) => ElsewhereQuiet(w, Cleaned(w, req, o), a);
    case Discard(_) => ElsewhereQuiet(w, Cleaned(w, req, o), a);
    case MarkFind(d) => LoseRunQuiet(w, d, req, a);
    case _ =>
  }

  lemma CreateQuiet(w: World, doc: Document, a: nat)
    ensures var w' := w.(docs := w.docs + [doc]); Quiet(w, w', a) && Quiet(w, w'.LoseDoc(|w.docs|), a)
  {
  }

  lemma DegradeQuiet(w: World, d: nat, req: nat, a: nat)
    ensures d < |w.docs| ==> Quiet(w, w.(docs := w.docs[d := w.docs[d].(status := Uploaded, temp := Some(req))]), a)
  {
  }

  lemma RequestPublishes(cfg: Config, w: World, req: nat, pc: RequestPc, o: Outcome, a: nat, row: Analysis)
    requires !RequestWritesRuns(pc) && a in w.analyses.rows && w.analyses.rows[a] == row && row.status == Queued
    requires w.analyses.Find(row.doc, row.req) == Some(a)
    requires Publishes(Request(req, pc), a, row) && RequestPublishing(w, req, pc)
    ensures var m := UploadRequest.Step(cfg, w, req, pc, o);
      || Publishes(m.proc, a, row) || (m.spawned.Some? && Handles(m.spawned.value, a)) || a in m.world.lostRuns
  {
  }

  lemma RequestInsertRuns(cfg: Config, w: World, req: nat, d: nat, o: Outcome, a: nat)
    requires Keyed(w, a, d, req)
    ensures RunStepOk(w, Request(req, RequestPc.Insert(d)), UploadRequest.StepAnalyse(w, req, RequestPc.Insert(d), o), a)
  {
  }

  lemma RequestMarkRuns(cfg: Config, w: World, req: nat, d: nat, o: Outcome, a: nat)
    requires Keyed(w, a, d, req)
    ensures RunStepOk(w, Request(req, RequestPc.MarkWrite(d)), UploadRequest.StepAnalyse(w, req, RequestPc.MarkWrite(d), o), a)
  {
  }

  lemma RequestRuns(cfg: Config, w: World, req: nat, pc: RequestPc, o: Outcome, a: nat)
    requires Keyed(w, a, ScopeOf(w, Request(req, pc)).doc, req)
    requires RequestPublishing(w, req, pc)
    ensures RunStepOk(w, Request(req, pc), UploadRequest.Step(cfg, w, req, pc, o), a)
  {
    hide RunStepOk, UploadRequest.StepAnalyse, Quiet;
    if pc.Insert? {
      RequestInsertRuns(cfg, w, req, pc.doc, o, a);
    } else if pc.MarkWrite? {
      RequestMarkRuns(cfg, w, req, pc.doc, o, a);
    } else {
      hide UploadRequest.Step;
      var p, m := Request(req, pc), UploadRequest.Step(cfg, w, req, pc, o);
      RequestQuiet(cfg, w, req, pc, o, a);
      if a in w.analyses.rows && Works(w.docs, p, a, w.analyses.rows[a]) {
        RequestPublishes(cfg, w, req, pc, o, a, w.analyses.rows[a]);
      }
      QuietRuns(w, p, m, a);
    }
  }

  /** The id a request is about to publish was handed out for its own key. */
  ghost predicate RequestPublishing(w: World, req: nat, pc: RequestPc) {
    pc.Publish? ==> RunOk(w.analyses, pc.run, pc.doc, req)
  }

  // --- Requests on analyses ---

  /** The rows after a dispatch was marked failed. */
  lemma BrokenRow(t: Table, d: nat, req: nat, a: nat)
    requires a in t.rows ==> t.Find(t.rows[a].doc, t.rows[a].req) == Some(a)
    ensures var t' := t.Update(d, req, Break(Transient));
      a in t'.rows ==> a in t.rows && if t.rows[a].doc == d && t.rows[a].req == req
                                      then t'.rows[a] == t.rows[a].With(Break(Transient)) else t'.rows[a] == t.rows[a] || t'.rows[a].Terminal()
  {
  }

  lemma ApiDispatchRuns(w: World, p: Proc, d: nat, req: nat, pc: ApiPc, o: Outcome, a: nat, p': Proc)
    requires Keyed(w, a, d, req)
    requires pc.Publish? || pc.MarkFind? || pc.MarkWrite?
    requires pc.Publish? ==> RunOk(w.analyses, pc.run, d, req)
    requires forall row :: Publishes(p, a, row) <==> PublishesApi(d, req, pc, a, row)
    requires var pc' := Services.StepDispatch(w, d, req, pc, o).1;
      forall row :: Publishes(p', a, row) <==> PublishesApi(d, req, pc', a, row)
    requires (p.Creator? || p.Retrier?) && (p'.Creator? || p'.Retrier?)
    ensures var (w', pc', sent) := Services.StepDispatch(w, d, req, pc, o); RunStepOk(w, p, Move(w', p', sent), a)
  {
    hide Table.Update;
    if pc.MarkWrite? { BrokenRow(w.analyses, d, req, a); }
  }

  lemma ApiInsertRuns(w: World, p: Proc, d: nat, req: nat, provider: Provider, retryOf: Option<nat>, o: Outcome, a: nat, p': Proc)
    requires Keyed(w, a, d, req)
    requires var pc' := Services.StepInsert(w, d, req, provider, retryOf, o).1;
      pc'.Publish? ==> forall row :: Publishes(p', a, row) <==> PublishesApi(d, req, pc', a, row)
    requires forall row :: !Publishes(p, a, row)
    requires (p.Creator? || p.Retrier?) && (p'.Creator? || p'.Retrier?)
    ensures RunStepOk(w, p, Move(Services.StepInsert(w, d, req, provider, retryOf, o).0, p', None), a)
  {
    hide Table.Insert;
    if w.analyses.Accepts(d, req, retryOf) {
      InsertedRow(w.analyses, d, req, provider, retryOf, a);
      InsertedKey(w.analyses, d, req, provider, retryOf);
    }
  }

  lemma CreatorRuns(w: World, d: nat, req: nat, provider: Provider, pc: ApiPc, o: Outcome, a: nat)
    requires Keyed(w, a, d, req) && ApiOk(w, d, req, pc)
    ensures RunStepOk(w, Creator(d, req, provider, pc), Services.StepCreate(w, d, req, provider, pc, o), a)
  {
    hide RunStepOk, Services.StepDispatch, Services.StepInsert, Quiet;
    var p, m := Creator(d, req, provider, pc), Services.StepCreate(w, d, req, provider, pc, o);
    if pc.Publish? || pc.MarkFind? || pc.MarkWrite? {
      ApiDispatchRuns(w, p, d, req, pc, o, a, m.proc);
    } else if pc.Insert? {
      ApiInsertRuns(w, p, d, req, pc.provider, None, o, a, m.proc);
    } else {
      ElsewhereQuiet(w, w, a);
      QuietRuns(w, p, m, a);
    }
  }

  lemma RetrierRuns(w: World, d: nat, req: nat, parent: nat, pc: ApiPc, o: Outcome, a: nat)
    requires Keyed(w, a, d, req) && ApiOk(w, d, req, pc)
    ensures RunStepOk(w, Retrier(d, req, parent, pc), Services.StepRetry(w, d, req, parent, pc, o), a)
  {
    hide RunStepOk, Services.StepDispatch, Services.StepInsert, Quiet;
    var p, m := Retrier(d, req, parent, pc), Services.StepRetry(w, d, req, parent, pc, o);
    if pc.Publish? || pc.MarkFind? || pc.MarkWrite? {
      ApiDispatchRuns(w, p, d, req, pc, o, a, m.proc);
    } else if pc.Insert? {
      ApiInsertRuns(w, p, d, req, pc.provider, Some(parent), o, a, m.proc);
    } else {
      ElsewhereQuiet(w, w, a);
      QuietRuns(w, p, m, a);
    }
  }

  lemma RemoverRuns(w: World, d: nat, target: nat, pc: RemovePc, o: Outcome, a: nat)
    requires a in w.analyses.rows ==> w.analyses.rows[a].doc < |w.docs|
    ensures RunStepOk(w, Remover(d, target, pc), Services.StepRemove(w, d, target, pc, o), a)
  {
  }

  // --- The message handler ---

  /** An update through the key hits `b` when `b` is still there, and otherwise a row given up before. */
  lemma UpdatedRuns(w: World, d: nat, b: nat, req: nat, change: Change, a: nat)
    requires Keyed(w, a, d, req) && (b in w.analyses.rows ==> w.analyses.Find(d, req) == Some(b))
    ensures var w' := Consumer.Updated(w, d, b, req, change);
      && Quiet(w, w.LoseRun(d, req), a)
      && (a in w'.analyses.rows ==>
           && a in w.analyses.rows
           && var row, row' := w.analyses.rows[a], w'.analyses.rows[a];
              && row'.doc == row.doc && row'.req == row.req
              && w'.docs == w.docs && w.lostRuns <= w'.lostRuns
              && (row' == row || a == b || a in w'.lostRuns)
              && (a == b ==> row' == row.With(change)))
  {
  }

  lemma HandlerRecoverRuns(w: World, d: nat, b: nat, req: nat, n: nat, o: Outcome, a: nat)
    requires Keyed(w, a, d, req) && (b in w.analyses.rows ==> w.analyses.Find(d, req) == Some(b))
    requires RunOk(w.analyses, b, d, req)
    ensures RunStepOk(w, Handler(d, b, req, Recover, n), Consumer.Step(w, d, b, req, Recover, n, o), a)
  {
  }

  lemma HandlerGivesUpRuns(w: World, d: nat, b: nat, req: nat, n: nat, o: Outcome, a: nat)
    requires Keyed(w, a, d, req) && (b in w.analyses.rows ==> w.analyses.Find(d, req) == Some(b))
    requires RunOk(w.analyses, b, d, req)
    ensures RunStepOk(w, Handler(d, b, req, RecoverWrite, n), Consumer.Step(w, d, b, req, RecoverWrite, n, o), a)
  {
  }

  lemma HandlerWriteRuns(w: World, d: nat, b: nat, req: nat, pc: HandlerPc, change: Change, pc': HandlerPc, n: nat, o: Outcome, a: nat)
    requires Keyed(w, a, d, req) && (b in w.analyses.rows ==> w.analyses.Find(d, req) == Some(b))
    requires !pc.Done? && (change.Begin? ==> !pc'.Done?)
    ensures RunStepOk(w, Handler(d, b, req, pc, n), Consumer.Write(w, d, b, req, change, pc', n, o), a)
  {
    hide Consumer.Updated;
    UpdatedRuns(w, d, b, req, change, a);
  }

  lemma HandlerRuns(w: World, d: nat, b: nat, req: nat, pc: HandlerPc, n: nat, o: Outcome, a: nat)
    requires Keyed(w, a, d, req) && HandlerOk(w, d, b, req, pc)
    requires b in w.analyses.rows ==> w.analyses.Find(d, req) == Some(b)
    ensures RunStepOk(w, Handler(d, b, req, pc, n), Consumer.Step(w, d, b, req, pc, n, o), a)
  {
    hide Consumer.Write, Quiet, RunStepOk;
    match pc
    case NoText => HandlerWriteRuns(w, d, b, req, pc, Break(Permanent), HandlerPc.Done, n, o, a);
    case WriteAnalyzing(text, version) => HandlerWriteRuns(w, d, b, req, pc, Begin, Ask(text, version), n, o, a);
    case WriteSuccess(report) => HandlerWriteRuns(w, d, b, req, pc, Change.Finish(report), HandlerPc.Done, n, o, a);
    case WriteRefused => HandlerWriteRuns(w, d, b, req, pc, Break(Permanent), HandlerPc.Done, n, o, a);
    case Recover => HandlerRecoverRuns(w, d, b, req, n, o, a);
    case RecoverWrite => HandlerGivesUpRuns(w, d, b, req, n, o, a);
    case _ =>
      ElsewhereQuiet(w, w, a);
      QuietRuns(w, Handler(d, b, req, pc, n), Consumer.Step(w, d, b, req, pc, n, o), a);
  }

  // --- All processes ---

  lemma KeyedHere(cfg: Config, w: World, a: nat, d: nat, req: nat)
    requires WorldOk(cfg, w)
    ensures Keyed(w, a, d, req)
  {
    hide DocsOk, UploadsOk, BytesOk, GateOk, KinOk;
  }

  lemma StepKeepsRuns(cfg: Config, w: World, p: Proc, o: Outcome, a: nat)
    requires WorldOk(cfg, w) && ProcOk(cfg, w, p)
    ensures RunStepOk(w, p, Step(cfg, w, p, o), a)
  {
    hide WorldOk, RunStepOk, Quiet, UploadRequest.Step, ScanTask.Step, UploadTask.Step, ExtractTask.Step, Consumer.Step;
    hide Services.StepCancel, Services.StepCreate, Services.StepRetry, Services.StepRemove;
    var m := Step(cfg, w, p, o);
    match p
    case Request(req, pc) => KeyedHere(cfg, w, a, ScopeOf(w, p).doc, req); RequestRuns(cfg, w, req, pc, o, a);
    case Scanner(args, pc, left) => ScannerQuiet(cfg, w, args, pc, left, o, a); TaskRuns(cfg, w, p, m, a);
    case Uploader(args, pc, left) => UploaderQuiet(w, args, pc, left, o, a); TaskRuns(cfg, w, p, m, a);
    case Extractor(args, pc, left) => KeyedHere(cfg, w, a, args.doc, args.req); ExtractorRuns(cfg, w, args, pc, left, o, a);
    case Canceller(d, pc) => CancellerQuiet(w, d, pc, o, a); TaskRuns(cfg, w, p, m, a);
    case Creator(d, req, provider, pc) => KeyedHere(cfg, w, a, d, req); CreatorRuns(w, d, req, provider, pc, o, a);
    case Retrier(d, req, parent, pc) => KeyedHere(cfg, w, a, d, req); RetrierRuns(w, d, req, parent, pc, o, a);
    case Remover(d, target, pc) => KeyedHere(cfg, w, a, d, 0); RemoverRuns(w, d, target, pc, o, a);
    case Handler(d, b, req, pc, n) =>
      KeyedHere(cfg, w, b, d, req);
      KeyedHere(cfg, w, a, d, req);
      HandlerRuns(w, d, b, req, pc, n, o, a);
  }

  lemma TaskRuns(cfg: Config, w: World, p: Proc, m: Move, a: nat)
    requires WorldOk(cfg, w) && Quiet(w, m.world, a)
    requires p.Scanner? || p.Uploader? || p.Canceller?
    ensures RunStepOk(w, p, m, a)
  {
    hide WorldOk;
    KeyedHere(cfg, w, a, 0, 0);
    QuietRuns(w, p, m, a);
  }
}

/** The scan gate, with either setting for an unavailable scanner and over every interleaving: what is stored is a
    file that a scan let pass. */
module Gate {
  import opened Types
  import opened AnalysisTable
  import opened Pipeline
  import opened BaseTask
  import opened Machine
  import opened Invariant
  import opened Safety
  import opened Progress
  import opened Idempotence
  import opened Temps
  import opened TempRuns
  import opened Rules
  import ScanTask
  import UploadTask
  import ExtractTask
  import UploadRequest
  import Services
  import Consumer

  /** The file of this request, with these bytes, was scanned and let through. */
  datatype Pass = Pass(req: nat, bytes: Bytes)

  /** This call is a scan that lets its file through: it did not raise and did not answer `infected`, and an
      unavailable scanner lets a file through only when the setting says so. */
  ghost predicate LetsThrough(cfg: Config, w: World, p: Proc, o: Outcome) {
    && p.Scanner? && p.spc.Scan? && p.args.req in w.temps
    && !o.Raise? && !o.Infected? && (o.Unavailable? ==> !cfg.failClosed)
  }

  ghost function PassOf(cfg: Config, w: World, p: Proc, o: Outcome): set<Pass> {
    if LetsThrough(cfg, w, p, o) then {Pass(p.args.req, w.temps[p.args.req])} else {}
  }

  /** The files that the scans of a run let through. */
  ghost function Passes(cfg: Config, s: System, es: seq<Event>): set<Pass>
    requires Feasible(cfg, s, es)
    decreases |es|
  {
    if es == [] then {} else
    (if es[0].Act? then PassOf(cfg, s.world, s.procs[es[0].i], es[0].o) else {}) + Passes(cfg, Apply(cfg, s, es[0]), es[1..])
  }

  // --- What each process may rely on ---

  ghost predicate Passed(seen: set<Pass>, w: World, n: nat) {
    n in w.uploads && Pass(n, w.uploads[n].bytes) in seen
  }

  /** A file that was not let through is not there. */
  ghost predicate Cleared(seen: set<Pass>, w: World, n: nat) {
    n in w.temps ==> Passed(seen, w, n)
  }

  ghost predicate ObjectsPassed(seen: set<Pass>, w: World) {
    forall n <- w.objects :: Passed(seen, w, n)
  }

  /** The document goes through the full pipeline: it names no object of another request. */
  ghost predicate Native(w: World, d: nat) {
    d < |w.docs| && (w.docs[d].key.Some? ==> w.docs[d].key.value == w.docs[d].req)
  }

  ghost function KeyOf(pc: ExtractPc): Option<nat> {
    match pc
    case CheckPath(key) => key
    case Restore(key, _) => key
    case WriteExtracting(key) => key
    case Extract(key, _) => key
    case _ => None
  }

  ghost predicate Gated(seen: set<Pass>, w: World, p: Proc) {
    match p
    case Request(_, pc) => pc.EnqueueFirst? ==> Native(w, pc.doc)
    case Scanner(args, pc, _) => Native(w, args.doc) && (pc.Enqueue? ==> Cleared(seen, w, args.req))
    case Uploader(args, _, _) => Native(w, args.doc) && Cleared(seen, w, args.req)
    case Extractor(args, pc, _) => KeyOf(pc).Some? ==> KeyOf(pc).value == args.req || !Native(w, args.doc)
    case _ => true
  }

  // --- What a call touches ---

  /** This call downloads an object to the file `n`. */
  ghost predicate Downloads(w: World, p: Proc, n: nat) {
    p.Extractor? && p.args.req == n && p.epc.Restore? && p.epc.key.Some? && p.epc.key.value in w.objects
  }

  /** Keys are written by the upload task of the document, files appear by a save or a download, objects by an
      upload of a file that is there. */
  ghost predicate Touches(w: World, p: Proc, w': World) {
    && w'.uploads == w.uploads
    && |w.docs| <= |w'.docs|
    && (forall d :: 0 <= d < |w.docs| ==>
          && w'.docs[d].req == w.docs[d].req
          && (w'.docs[d].key == w.docs[d].key || (p.Uploader? && p.args.doc == d && w'.docs[d].key == Some(p.args.req))))
    && (forall n <- w'.temps :: n in w.temps || p == Request(n, Save) || Downloads(w, p, n))
    && (forall n <- w'.objects :: n in w.objects || (p.Uploader? && p.args.req == n && n in w.temps))
  }

  lemma SameTouches(w: World, p: Proc, w': World)
    requires w'.uploads == w.uploads && w'.docs == w.docs && w'.temps == w.temps && w'.objects == w.objects
    ensures Touches(w, p, w')
  {
  }

  lemma StatusTouches(w: World, p: Proc, d: nat, status: DocumentStatus)
    ensures Touches(w, p, w.SetStatus(d, status)) && Touches(w, p, w.Finish(d, status))
  {
    hide Touches;
    if d < |w.docs| {
      RowTouches(w, p, d, w.docs[d].(status := status));
      RowTouches(w, p, d, w.docs[d].(status := status, temp := None));
    } else {
      SameTouches(w, p, w);
    }
  }

  lemma RowTouches(w: World, p: Proc, d: nat, doc: Document)
    requires d < |w.docs| && doc.req == w.docs[d].req && doc.key == w.docs[d].key
    ensures Touches(w, p, w.(docs := w.docs[d := doc]))
  {
  }

  lemma UnlinkTouches(w: World, p: Proc, n: nat, o: Outcome)
    ensures Touches(w, p, Cleaned(w, n, o))
  {
  }

  lemma TailTouches(w: World, p: Proc, args: Args, t: Tail, o: Outcome)
    ensures Touches(w, p, StepTail(w, args, t, o))
  {
    hide Touches, Cleaned, World.Finish;
    SameTouches(w, p, w);
    SameTouches(w, p, w.LoseDoc(args.doc));
    StatusTouches(w, p, args.doc, Failed);
    UnlinkTouches(w, p, args.req, o);
  }

  lemma RunTouches(w: World, p: Proc, d: nat, a: nat, req: nat, change: Change)
    ensures Touches(w, p, w.LoseRun(d, req)) && Touches(w, p, w.Update(d, req, change))
    ensures Touches(w, p, Consumer.Updated(w, d, a, req, change))
  {
    hide Touches, Table.Update, Table.Find;
    SameTouches(w, p, w.LoseRun(d, req));
    SameTouches(w, p, w.Update(d, req, change));
    SameTouches(w, p, Consumer.Updated(w, d, a, req, change));
  }

  lemma RequestTouches(cfg: Config, w: World, req: nat, pc: RequestPc, o: Outcome)
    ensures Touches(w, Request(req, pc), UploadRequest.Step(cfg, w, req, pc, o).world)
  {
    hide Touches, UploadRequest.NewDocument, UploadRequest.StepAnalyse, World.Finish, World.SetStatus, Cleaned;
    var p := Request(req, pc);
    SameTouches(w, p, w);
    if pc.Save? { SaveTouches(w, req); }
    if pc.CreateDoc? { CreateTouches(w, p, UploadRequest.NewDocument(cfg, w.File(req), req, pc.plan)); }
    if pc.MarkFailed? {
      SameTouches(w, p, w.LoseDoc(pc.doc));
      StatusTouches(w, p, pc.doc, Failed);
    }
    if pc.Discard? { UnlinkTouches(w, p, req, o); }
    if pc.UpsertText? || pc.Degrade? || pc.Unlink? || pc.Find? || pc.Insert? || pc.FindAgain? || pc.Publish? || pc.MarkFind?
       || pc.MarkWrite? {
      hide *;
      AnalyseTouches(cfg, w, req, pc, o);
    }
  }

  lemma SaveTouches(w: World, req: nat)
    ensures Touches(w, Request(req, Save), w.(temps := w.temps[req := w.File(req).bytes]))
  {
  }

  lemma CreateTouches(w: World, p: Proc, doc: Document)
    ensures var w' := w.(docs := w.docs + [doc]); Touches(w, p, w') && Touches(w, p, w'.LoseDoc(|w.docs|))
  {
  }

  lemma AnalyseTouches(cfg: Config, w: World, req: nat, pc: RequestPc, o: Outcome)
    requires pc.UpsertText? || pc.Degrade? || pc.Unlink? || pc.Find? || pc.Insert? || pc.FindAgain? || pc.Publish?
             || pc.MarkFind? || pc.MarkWrite?
    ensures Touches(w, Request(req, pc), UploadRequest.Step(cfg, w, req, pc, o).world)
  {
    hide Touches, Table.Insert, World.Update, Cleaned;
    var p, w' := Request(req, pc), UploadRequest.Step(cfg, w, req, pc, o).world;
    SameTouches(w, p, w);
    if pc.Degrade? {
      if pc.doc < |w.docs| { RowTouches(w, p, pc.doc, w.docs[pc.doc].(status := Uploaded, temp := Some(req))); }
    } else if pc.Unlink? {
      UnlinkTouches(w, p, req, o);
    } else if pc.MarkFind? || pc.MarkWrite? {
      RunTouches(w, p, pc.doc, 0, req, Break(Transient));
    } else {
      SameTouches(w, p, w');
    }
  }

  lemma ScannerTouches(cfg: Config, w: World, args: Args, pc: ScanPc, left: nat, o: Outcome)
    ensures Touches(w, Scanner(args, pc, left), ScanTask.Step(cfg, w, args, pc, left, o).world)
  {
    hide Touches, StepTail, World.Finish, World.SetStatus;
    var p := Scanner(args, pc, left);
    SameTouches(w, p, w);
    if pc.WriteCancelled? { StatusTouches(w, p, args.doc, Cancelled); }
    if pc.WriteScanning? { StatusTouches(w, p, args.doc, Scanning); }
    if pc.WriteInfected? { StatusTouches(w, p, args.doc, DocumentStatus.Infected); }
    if pc.WriteFailed? { StatusTouches(w, p, args.doc, Failed); }
    if pc.Scan? && args.req in w.temps { SameTouches(w, p, w.(clean := w.clean + {w.temps[args.req]})); }
    if pc.Tail? { TailTouches(w, p, args, pc.tail, o); }
  }

  lemma UploaderTouches(w: World, args: Args, pc: UploadPc, left: nat, o: Outcome)
    ensures Touches(w, Uploader(args, pc, left), UploadTask.Step(w, args, pc, left, o).world)
  {
    hide Touches, StepTail, World.Finish, World.SetStatus, UploadTask.SetUploaded;
    var p := Uploader(args, pc, left);
    SameTouches(w, p, w);
    if pc.WriteCancelled? { StatusTouches(w, p, args.doc, Cancelled); }
    if pc.WriteUploading? { StatusTouches(w, p, args.doc, Uploading); }
    if pc.WriteFailed? { StatusTouches(w, p, args.doc, Failed); }
    if pc.WriteUploaded? { UploadedTouches(w, args, pc, left); }
    if pc.Put? && args.req in w.temps { PutTouches(w, args, left); }
    if pc.Tail? { TailTouches(w, p, args, pc.tail, o); }
  }

  lemma UploadedTouches(w: World, args: Args, pc: UploadPc, left: nat)
    ensures Touches(w, Uploader(args, pc, left), UploadTask.SetUploaded(w, args.doc, args.req))
  {
  }

  lemma PutTouches(w: World, args: Args, left: nat)
    requires args.req in w.temps
    ensures Touches(w, Uploader(args, Put, left), w.(objects := w.objects[args.req := w.temps[args.req]]))
  {
  }

  lemma ExtractorTouches(cfg: Config, w: World, args: Args, pc: ExtractPc, left: nat, o: Outcome)
    ensures Touches(w, Extractor(args, pc, left), ExtractTask.Step(cfg, w, args, pc, left, o).world)
  {
    hide Touches, ExtractTask.StepFailure, ExtractTask.StepDispatch, World.Finish, World.SetStatus, Cleaned;
    var p := Extractor(args, pc, left);
    SameTouches(w, p, w);
    if ExtractTask.Dispatching(pc) {
      hide *;
      DispatchTouches(cfg, w, args, pc, left, o);
    } else if pc.ReadExtracted? || pc.MarkFind? || pc.MarkWrite? || pc.Tail? {
      hide *;
      FailureTouches(cfg, w, args, pc, left, o);
    } else {
      if pc.WriteExtracting? { StatusTouches(w, p, args.doc, DocumentStatus.Extracting); }
      if pc.WriteExtracted? { StatusTouches(w, p, args.doc, DocumentStatus.Extracted); }
      if pc.WriteFailed? { StatusTouches(w, p, args.doc, Failed); }
      if pc.Unlink? { UnlinkTouches(w, p, args.req, o); }
      if pc.Upsert? { SameTouches(w, p, w.(texts := w.texts[args.doc := pc.text])); }
      if pc.Restore? && pc.key.Some? && pc.key.value in w.objects { RestoreTouches(w, args, pc, left); }
    }
  }

  lemma RestoreTouches(w: World, args: Args, pc: ExtractPc, left: nat)
    requires pc.Restore? && pc.key.Some? && pc.key.value in w.objects
    ensures Touches(w, Extractor(args, pc, left), w.(temps := w.temps[args.req := w.objects[pc.key.value]]))
  {
  }

  lemma DispatchTouches(cfg: Config, w: World, args: Args, pc: ExtractPc, left: nat, o: Outcome)
    requires ExtractTask.Dispatching(pc)
    ensures Touches(w, Extractor(args, pc, left), ExtractTask.Step(cfg, w, args, pc, left, o).world)
  {
    hide Touches, ExtractTask.StepFailure, Table.Insert;
    SameTouches(w, Extractor(args, pc, left), ExtractTask.Step(cfg, w, args, pc, left, o).world);
  }

  lemma FailureTouches(cfg: Config, w: World, args: Args, pc: ExtractPc, left: nat, o: Outcome)
    requires pc.ReadExtracted? || pc.MarkFind? || pc.MarkWrite? || pc.Tail?
    ensures Touches(w, Extractor(args, pc, left), ExtractTask.Step(cfg, w, args, pc, left, o).world)
  {
    hide Touches, ExtractTask.StepDispatch, StepTail, World.Update, Table.Find;
    var p := Extractor(args, pc, left);
    SameTouches(w, p, w);
    if pc.Tail? {
      TailTouches(w, p, args, pc.tail, o);
    } else {
      SameTouches(w, p, w.LoseDoc(args.doc).LoseRun(args.doc, args.req));
      RunTouches(w, p, args.doc, 0, args.req, Break(Transient));
    }
  }

  lemma CancellerTouches(w: World, d: nat, pc: CancelPc, o: Outcome)
    ensures Touches(w, Canceller(d, pc), Services.StepCancel(w, d, pc, o).world)
  {
  }

  lemma CreatorTouches(w: World, d: nat, req: nat, provider: Provider, pc: ApiPc, o: Outcome)
    ensures Touches(w, Creator(d, req, provider, pc), Services.StepCreate(w, d, req, provider, pc, o).world)
  {
    hide Table.Insert, Table.Update, Touches;
    SameTouches(w, Creator(d, req, provider, pc), Services.StepCreate(w, d, req, provider, pc, o).world);
  }

  lemma RetrierTouches(w: World, d: nat, req: nat, parent: nat, pc: ApiPc, o: Outcome)
    ensures Touches(w, Retrier(d, req, parent, pc), Services.StepRetry(w, d, req, parent, pc, o).world)
  {
    hide Table.Insert, Table.Update, Touches;
    SameTouches(w, Retrier(d, req, parent, pc), Services.StepRetry(w, d, req, parent, pc, o).world);
  }

  lemma RemoverTouches(w: World, d: nat, target: nat, pc: RemovePc, o: Outcome)
    ensures Touches(w, Remover(d, target, pc), Services.StepRemove(w, d, target, pc, o).world)
  {
    hide Table.Delete, Touches;
    SameTouches(w, Remover(d, target, pc), Services.StepRemove(w, d, target, pc, o).world);
  }

  lemma HandlerTouches(w: World, d: nat, a: nat, req: nat, pc: HandlerPc, n: nat, o: Outcome)
    ensures Touches(w, Handler(d, a, req, pc, n), Consumer.Step(w, d, a, req, pc, n, o).world)
  {
    hide Touches, World.Update, World.LoseRun, Consumer.Updated;
    var p := Handler(d, a, req, pc, n);
    SameTouches(w, p, w);
    if pc.Corrupt? && a in w.analyses.rows {
      var row := w.analyses.rows[a];
      RunTouches(w, p, row.doc, a, row.req, Break(Permanent));
    }
    if pc.NoText? || pc.WriteRefused? { RunTouches(w, p, d, a, req, Break(Permanent)); }
    if pc.WriteAnalyzing? { RunTouches(w, p, d, a, req, Begin); }
    if pc.WriteSuccess? { RunTouches(w, p, d, a, req, Change.Finish(pc.report)); }
    if pc.Recover? || pc.RecoverWrite? { RunTouches(w, p, d, a, req, Break(Transient)); }
  }

  lemma StepTouches(cfg: Config, w: World, p: Proc, o: Outcome)
    ensures Touches(w, p, Step(cfg, w, p, o).world)
  {
    hide UploadRequest.Step, ScanTask.Step, UploadTask.Step, ExtractTask.Step, Services.StepCancel, Services.StepCreate;
    hide Services.StepRetry, Services.StepRemove, Consumer.Step, Touches;
    match p
    case Request(req, pc) => RequestTouches(cfg, w, req, pc, o);
    case Scanner(args, pc, left) => ScannerTouches(cfg, w, args, pc, left, o);
    case Uploader(args, pc, left) => UploaderTouches(w, args, pc, left, o);
    case Extractor(args, pc, left) => ExtractorTouches(cfg, w, args, pc, left, o);
    case Canceller(d, pc) => CancellerTouches(w, d, pc, o);
    case Creator(d, req, provider, pc) => CreatorTouches(w, d, req, provider, pc, o);
    case Retrier(d, req, parent, pc) => RetrierTouches(w, d, req, parent, pc, o);
    case Remover(d, target, pc) => RemoverTouches(w, d, target, pc, o);
    case Handler(d, a, req, pc, n) => HandlerTouches(w, d, a, req, pc, n, o);
  }

  // --- What a call leaves in order for every process ---

  lemma NativeIff(w: World, p: Proc, w': World, d: nat)
    requires Touches(w, p, w') && d < |w.docs|
    requires p.Uploader? ==> Native(w, p.args.doc) && w.docs[p.args.doc].req == p.args.req
    ensures Native(w', d) <==> Native(w, d)
  {
  }

  lemma TaskDoc(cfg: Config, w: World, p: Proc)
    requires ProcOk(cfg, w, p) && p.IsTask()
    ensures p.args.doc < |w.docs| && w.docs[p.args.doc].req == p.args.req
  {
    hide ExtractOk;
    if p.Extractor? { ExtractDoc(cfg, w, p.args, p.epc); }
  }

  lemma SameDoc(docs: seq<Document>, d: nat, e: nat)
    requires Distinct(docs) && d < |docs| && e < |docs| && docs[d].req == docs[e].req
    ensures d == e
  {
  }

  lemma SavedIsNew(docs: seq<Document>, n: nat, d: nat)
    requires Temps.Fresh(docs, Request(n, Save)) && d < |docs|
    ensures docs[d].req != n
  {
  }

  /** A file that appears was let through, if a scan or upload task depends on that: the document has no other
      object it could have come from. */
  lemma StaysCleared(cfg: Config, seen: set<Pass>, w: World, p: Proc, w': World, q: Proc)
    requires Touches(w, p, w') && ProcOk(cfg, w, p) && ProcOk(cfg, w, q) && Distinct(w.docs) && Temps.Fresh(w.docs, p)
    requires Gated(seen, w, p) && ObjectsPassed(seen, w)
    requires (q.Scanner? || q.Uploader?) && Native(w, q.args.doc) && Cleared(seen, w, q.args.req)
    ensures Cleared(seen, w', q.args.req)
  {
    hide ProcOk, Distinct, Temps.Fresh;
    TaskDoc(cfg, w, q);
    var n := q.args.req;
    if n in w'.temps && n !in w.temps {
      if p == Request(n, Save) {
        SavedIsNew(w.docs, n, q.args.doc);
      } else {
        TaskDoc(cfg, w, p);
        SameDoc(w.docs, p.args.doc, q.args.doc);
      }
    }
  }

  lemma StaysGated(cfg: Config, seen: set<Pass>, w: World, p: Proc, w': World, q: Proc)
    requires Touches(w, p, w') && ProcOk(cfg, w, p) && ProcOk(cfg, w, q) && Distinct(w.docs) && Temps.Fresh(w.docs, p)
    requires Gated(seen, w, p) && ObjectsPassed(seen, w) && Gated(seen, w, q)
    ensures Gated(seen, w', q)
  {
    hide ProcOk, Distinct, Temps.Fresh, Touches, Native, Cleared;
    if p.Uploader? { TaskDoc(cfg, w, p); }
    if q.Request? {
      if q.rpc.EnqueueFirst? { NativeExists(w, q.rpc.doc); NativeIff(w, p, w', q.rpc.doc); }
    } else if q.IsTask() {
      TaskDoc(cfg, w, q);
      NativeIff(w, p, w', q.args.doc);
      if q.Uploader? || (q.Scanner? && q.spc.Enqueue?) { StaysCleared(cfg, seen, w, p, w', q); }
    }
  }

  lemma NativeExists(w: World, d: nat)
    requires Native(w, d)
    ensures d < |w.docs|
  {
  }

  lemma ObjectsStayPassed(cfg: Config, seen: set<Pass>, w: World, p: Proc, w': World)
    requires Touches(w, p, w') && Gated(seen, w, p) && ObjectsPassed(seen, w)
    ensures ObjectsPassed(seen, w')
  {
  }

  lemma MoreGated(seen: set<Pass>, more: set<Pass>, w: World, p: Proc)
    requires Gated(seen, w, p) && seen <= more
    ensures Gated(more, w, p)
  {
  }

  // --- The next position ---

  lemma RequestAdvances(cfg: Config, seen: set<Pass>, w: World, req: nat, pc: RequestPc, o: Outcome)
    requires cfg.scanning
    requires var m := UploadRequest.Step(cfg, w, req, pc, o); Gated(seen, m.world, Request(req, pc))
    ensures var m := UploadRequest.Step(cfg, w, req, pc, o);
      Gated(seen, m.world, m.proc) && (m.spawned.Some? ==> Gated(seen, m.world, m.spawned.value))
  {
    hide Table.Insert, Table.Update;
  }

  /** The scan decides: with the file there, only a file that was let through is handed on. */
  lemma ScannerAdvances(cfg: Config, seen: set<Pass>, w: World, args: Args, pc: ScanPc, left: nat, o: Outcome)
    requires args.req in w.temps ==> args.req in w.uploads && w.temps[args.req] == w.uploads[args.req].bytes
    requires var m := ScanTask.Step(cfg, w, args, pc, left, o); Gated(seen, m.world, Scanner(args, pc, left))
    ensures var m := ScanTask.Step(cfg, w, args, pc, left, o);
      var more := seen + PassOf(cfg, w, Scanner(args, pc, left), o);
      Gated(more, m.world, m.proc) && (m.spawned.Some? ==> Gated(more, m.world, m.spawned.value))
  {
    hide Native, StepTail, World.Finish, World.SetStatus;
  }

  lemma UploaderAdvances(seen: set<Pass>, w: World, args: Args, pc: UploadPc, left: nat, o: Outcome)
    requires var m := UploadTask.Step(w, args, pc, left, o); Gated(seen, m.world, Uploader(args, pc, left))
    ensures var m := UploadTask.Step(w, args, pc, left, o);
      Gated(seen, m.world, m.proc) && (m.spawned.Some? ==> Gated(seen, m.world, m.spawned.value))
  {
    hide Native, Cleared, StepTail, World.Finish, World.SetStatus, UploadTask.SetUploaded;
  }

  lemma ExtractorAdvances(cfg: Config, seen: set<Pass>, w: World, args: Args, pc: ExtractPc, left: nat, o: Outcome)
    requires args.doc < |w.docs| && w.docs[args.doc].req == args.req
    requires var m := ExtractTask.Step(cfg, w, args, pc, left, o); Gated(seen, m.world, Extractor(args, pc, left))
    ensures var m := ExtractTask.Step(cfg, w, args, pc, left, o);
      Gated(seen, m.world, m.proc) && (m.spawned.Some? ==> Gated(seen, m.world, m.spawned.value))
  {
    hide ExtractTask.StepFailure, ExtractTask.StepDispatch, World.Finish, World.SetStatus, Cleaned;
    if ExtractTask.Dispatching(pc) || pc.ReadExtracted? || pc.MarkFind? || pc.MarkWrite? || pc.Tail? {
      hide *;
      ExtractorEnds(cfg, seen, w, args, pc, left, o);
    }
  }

  lemma ExtractorEnds(cfg: Config, seen: set<Pass>, w: World, args: Args, pc: ExtractPc, left: nat, o: Outcome)
    requires ExtractTask.Dispatching(pc) || pc.ReadExtracted? || pc.MarkFind? || pc.MarkWrite? || pc.Tail?
    ensures var m := ExtractTask.Step(cfg, w, args, pc, left, o);
      Gated(seen, m.world, m.proc) && (m.spawned.Some? ==> Gated(seen, m.world, m.spawned.value))
  {
    hide Native, StepTail, World.Update, World.LoseRun, Table.Insert;
  }

  lemma OthersAdvance(cfg: Config, seen: set<Pass>, w: World, p: Proc, o: Outcome)
    requires !OnFile(p)
    ensures var m := Step(cfg, w, p, o);
      Gated(seen, m.world, m.proc) && (m.spawned.Some? ==> Gated(seen, m.world, m.spawned.value))
  {
    hide UploadRequest.Step, ScanTask.Step, UploadTask.Step, ExtractTask.Step, Services.StepCreate, Services.StepRetry, Consumer.Step;
    match p
    case Creator(d, req, provider, pc) => CreatorStays(w, d, req, provider, pc, o);
    case Retrier(d, req, parent, pc) => RetrierStays(w, d, req, parent, pc, o);
    case Handler(d, a, req, pc, n) => HandlerStays(w, d, a, req, pc, n, o);
    case _ =>
  }

  lemma StepAdvances(cfg: Config, seen: set<Pass>, w: World, p: Proc, o: Outcome)
    requires cfg.scanning && WorldOk(cfg, w) && ProcOk(cfg, w, p) && Gated(seen, Step(cfg, w, p, o).world, p)
    ensures var m := Step(cfg, w, p, o); var more := seen + PassOf(cfg, w, p, o);
      Gated(more, m.world, m.proc) && (m.spawned.Some? ==> Gated(more, m.world, m.spawned.value))
  {
    hide UploadRequest.Step, ScanTask.Step, UploadTask.Step, ExtractTask.Step, Services.StepCancel, Services.StepCreate;
    hide Services.StepRetry, Services.StepRemove, Consumer.Step, Gated, ProcOk, WorldOk, PassOf;
    var more := seen + PassOf(cfg, w, p, o);
    MoreGated(seen, more, Step(cfg, w, p, o).world, p);
    match p
    case Request(req, pc) => RequestAdvances(cfg, more, w, req, pc, o);
    case Scanner(args, pc, left) =>
      if args.req in w.temps { ScanClean(cfg, w, args.req); }
      ScannerAdvances(cfg, seen, w, args, pc, left, o);
    case Uploader(args, pc, left) => UploaderAdvances(more, w, args, pc, left, o);
    case Extractor(args, pc, left) => TaskDoc(cfg, w, p); ExtractorAdvances(cfg, more, w, args, pc, left, o);
    case _ => OthersAdvance(cfg, more, w, p, o);
  }

  // --- Runs ---

  ghost predicate Origins(s: System) {
    Distinct(s.world.docs) && Owned(s) && forall i :: 0 <= i < |s.procs| ==> Temps.Fresh(s.world.docs, s.procs[i])
  }

  ghost predicate AllGated(seen: set<Pass>, s: System) {
    ObjectsPassed(seen, s.world) && forall i :: 0 <= i < |s.procs| ==> Gated(seen, s.world, s.procs[i])
  }

  lemma ApplyKeepsOrigins(cfg: Config, s: System, e: Event)
    requires cfg.CollisionFree() && Safe(cfg, s) && Numbered(s) && Enabled(cfg, s, e) && Origins(s)
    ensures Origins(Apply(cfg, s, e))
  {
    hide Step, WorldOk, ProcOk, Distinct, Owned, Unused;
    ApplyKeepsOwned(cfg, s, e);
    if e.Act? {
      StepKeepsSafety(cfg, s.world, s.procs[e.i], e.o);
      ActKeepsFresh(cfg, s, e.i, e.o);
    } else {
      NumberIsUnused(cfg, s);
      StartedRests(cfg, s, e);
    }
  }

  lemma ActKeepsGated(cfg: Config, seen: set<Pass>, s: System, i: nat, o: Outcome)
    requires cfg.scanning && Safe(cfg, s) && Enabled(cfg, s, Act(i, o)) && Origins(s) && AllGated(seen, s)
    ensures AllGated(seen + PassOf(cfg, s.world, s.procs[i], o), Apply(cfg, s, Act(i, o)))
  {
    hide Step, WorldOk, ProcOk, Gated, Distinct, Owned, Temps.Fresh, Touches, PassOf, ObjectsPassed;
    var w, p, m := s.world, s.procs[i], Step(cfg, s.world, s.procs[i], o);
    var s', more := Apply(cfg, s, Act(i, o)), seen + PassOf(cfg, w, p, o);
    StepTouches(cfg, w, p, o);
    ObjectsStayPassed(cfg, seen, w, p, m.world);
    MoreObjects(seen, more, m.world);
    StaysGated(cfg, seen, w, p, m.world, p);
    StepAdvances(cfg, seen, w, p, o);
    forall j | 0 <= j < |s'.procs| ensures Gated(more, s'.world, s'.procs[j]) {
      if j < |s.procs| && j != i {
        StaysGated(cfg, seen, w, p, m.world, s.procs[j]);
        MoreGated(seen, more, m.world, s.procs[j]);
      }
    }
  }

  lemma MoreObjects(seen: set<Pass>, more: set<Pass>, w: World)
    requires ObjectsPassed(seen, w) && seen <= more
    ensures ObjectsPassed(more, w)
  {
  }

  lemma ArriveKeepsGated(cfg: Config, seen: set<Pass>, s: System, e: Event)
    requires Numbered(s) && Enabled(cfg, s, e) && !e.Act? && AllGated(seen, s)
    ensures AllGated(seen, Apply(cfg, s, e))
  {
    hide Gated;
    var s' := Apply(cfg, s, e);
    forall i | 0 <= i < |s.procs| ensures Gated(seen, s'.world, s.procs[i]) {
      ArrivesGated(seen, s.world, s'.world, s.procs[i]);
    }
    NewIsGated(cfg, seen, s, e, s'.world);
  }

  lemma ArrivesGated(seen: set<Pass>, w: World, w': World, p: Proc)
    requires w' == w.(uploads := w'.uploads) && Extends(w.uploads, w'.uploads) && Gated(seen, w, p)
    ensures Gated(seen, w', p)
  {
  }

  lemma NewIsGated(cfg: Config, seen: set<Pass>, s: System, e: Event, w: World)
    requires Enabled(cfg, s, e) && !e.Act? && (e.Duplicate? ==> Gated(seen, w, s.procs[e.i]))
    ensures Gated(seen, w, Started(s, e))
  {
  }

  lemma {:induction false} RunIsGated(cfg: Config, seen: set<Pass>, s: System, es: seq<Event>)
    requires cfg.CollisionFree() && cfg.scanning && Safe(cfg, s) && Numbered(s) && Feasible(cfg, s, es)
    requires Origins(s) && AllGated(seen, s)
    ensures AllGated(seen + Passes(cfg, s, es), Run(cfg, s, es))
    decreases |es|
  {
    hide Safe, Numbered, Step, AllGated, Origins, PassOf;
    if es == [] {
      assert seen + Passes(cfg, s, es) == seen;
    } else {
      var now := if es[0].Act? then PassOf(cfg, s.world, s.procs[es[0].i], es[0].o) else {};
      assert seen + Passes(cfg, s, es) == seen + now + Passes(cfg, Apply(cfg, s, es[0]), es[1..]);
      ApplyKeepsSafety(cfg, s, es[0]);
      ApplyKeepsOrigins(cfg, s, es[0]);
      if es[0].Act? {
        ActKeepsGated(cfg, seen, s, es[0].i, es[0].o);
      } else {
        ArriveKeepsGated(cfg, seen, s, es[0]);
        assert seen + now == seen;
      }
      RunIsGated(cfg, seen + now, Apply(cfg, s, es[0]), es[1..]);
    }
  }
}

/** The upload request, statement by statement. */
module Uploads {
  import opened Types
  import opened AnalysisTable
  import opened Pipeline
  import opened BaseTask
  import opened Machine
  import opened Stores
  import Consumer
  import ScanTask
  import UploadTask
  import ExtractTask
  import Services
  import UploadRequest

  /** Why a request fails: the document is marked failed, or the analysis could not be started and it is not. */
  datatype Failure = Processing | AnalysisStart

  class UploadService {
    const req: nat
    const file: UploadedFile
    const stores: Stores

    constructor (req: nat, stores: Stores)
      requires req in stores.uploads
      ensures this.req == req && this.stores == stores && Ready()
    {
      this.req, this.stores, file := req, stores, stores.uploads[req];
    }

    predicate Ready() {
      req in stores.uploads && stores.uploads[req] == file
    }

    ghost function Pos(pc: RequestPc): Proc {
      Request(req, pc)
    }

    ghost predicate At(pc: RequestPc)
      reads stores
    {
      Ready() && stores.Valid() && stores.pos == Pos(pc)
    }

    twostate predicate MovedTo(pc: RequestPc)
      reads stores
    {
      stores.Continues() && stores.pos == Pos(pc)
    }

    /** A request that succeeds has enqueued one task or message, and one that fails without an error none. */
    twostate predicate Enqueued(ok: bool)
      reads stores
    {
      if ok then |stores.queue| == |old(stores.queue)| + 1
      else stores.SomeRaised() || stores.queue == old(stores.queue)
    }

    /** Where a failure leads. */
    ghost function After(failure: Option<Failure>, d: nat): RequestPc {
      match failure
      case None => RequestPc.Done
      case Some(Processing) => MarkFailed(d)
      case Some(AnalysisStart) => Discard(Some(d))
    }

    method SaveFile() returns (raised: bool)
      requires At(Save)
      modifies stores
      ensures MovedTo(if raised then Discard(None) else Candidates)
      ensures stores.queue == old(stores.queue) && (raised ==> stores.SomeRaised())
    {
      hide Consumer.Step, ScanTask.Step, UploadTask.Step, ExtractTask.Step, Services.StepCancel, Services.StepCreate,
        Services.StepRetry, Services.StepRemove;
      var o := stores.SaveTemp(req, file.bytes);
      raised := o.Raise?;
    }

    lemma LookupCalls(w: World, found: seq<Candidate>)
      requires w.uploads == stores.uploads && Ready() && found != []
      ensures var cfg, p, hits := stores.cfg, Pos(Content(found)), UploadRequest.WithText(found, w.texts);
        && Reads(cfg, w, p)
        && forall o :: Step(cfg, w, p, o).proc == Pos(
             if o.Raise? then Discard(None)
             else if o.Disconnect? || hits == [] then CreateDoc(ExtractOnly(UploadRequest.Pick(found, o).key))
             else var c := UploadRequest.Pick(hits, o);
               CreateDoc(AnalyseOnly(c.key, if c.doc in w.texts then w.texts[c.doc] else "")))
    {
      hide Consumer.Step, ScanTask.Step, UploadTask.Step, ExtractTask.Step, Services.StepCancel, Services.StepCreate,
        Services.StepRetry, Services.StepRemove;
      hide UploadRequest.Pick, UploadRequest.WithText, UploadRequest.StepAnalyse;
    }

    function Hash(): string {
      stores.cfg.hash(file.bytes)
    }

    method GetContent(found: seq<Candidate>) returns (plan: Option<Plan>)
      requires At(Content(found)) && found != []
      modifies stores
      ensures MovedTo(if plan.Some? then CreateDoc(plan.value) else Discard(None))
      ensures Agrees(stores.World(), old(stores.World())) && |stores.calls| == |old(stores.calls)| + 1
      ensures plan.None? <==> stores.Latest().Raise?
      ensures plan.Some? ==> UploadRequest.Fits(plan.value, found, stores.texts, !stores.Latest().Disconnect?)
      ensures stores.queue == old(stores.queue)
    {
      hide Step, Reads, Follow, Busy, UploadRequest.Pick, UploadRequest.WithText;
      LookupCalls(stores.World(), found);
      forall c ensures c in UploadRequest.WithText(found, stores.texts) <==> c in found && UploadRequest.HasText(stores.texts, c.doc) {
        UploadRequest.WithTextIff(found, stores.texts, c);
      }
      plan := None;
      var o := stores.Read();
      if o.Raise? { return None; }
      var hits := UploadRequest.WithText(found, stores.texts);
      if o.Disconnect? || hits == [] {
        plan := Some(ExtractOnly(UploadRequest.Pick(found, o).key));
      } else {
        var c := UploadRequest.Pick(hits, o);
        plan := Some(AnalyseOnly(c.key, if c.doc in stores.texts then stores.texts[c.doc] else ""));
      }
    }

    /** The documents that hold these bytes. */
    method FindReusable() returns (found: seq<Candidate>, raised: bool)
      requires At(Candidates)
      modifies stores
      ensures MovedTo(if raised then Discard(None) else if found == [] then CreateDoc(Full) else Content(found))
      ensures Agrees(stores.World(), old(stores.World())) && |stores.calls| == |old(stores.calls)| + 1
      ensures raised <==> stores.Latest().Raise?
      ensures !raised ==> forall c :: c in found <==> UploadRequest.Holds(stores.docs, Hash(), c.doc, c.key)
      ensures stores.queue == old(stores.queue)
    {
      hide Consumer.Step, ScanTask.Step, UploadTask.Step, ExtractTask.Step, Services.StepCancel, Services.StepCreate,
        Services.StepRetry, Services.StepRemove;
      hide UploadRequest.Reusable;
      var hash := stores.cfg.hash(file.bytes);
      forall c: Candidate
        ensures c in UploadRequest.Reusable(stores.docs, hash) <==> UploadRequest.Holds(stores.docs, hash, c.doc, c.key)
      {
        UploadRequest.ReusableIff(stores.docs, hash, c);
      }
      var o := stores.Read();
      raised := o.Raise?;
      found := if raised then [] else UploadRequest.Reusable(stores.docs, hash);
    }

    /** The right plan for the tables as they are, unless a call raises. */
    method DetermineProcessingPath() returns (plan: Option<Plan>)
      requires At(Candidates)
      modifies stores
      ensures MovedTo(if plan.Some? then CreateDoc(plan.value) else Discard(None))
      ensures Agrees(stores.World(), old(stores.World())) && stores.calls != []
      ensures plan.None? <==> stores.SomeRaised()
      ensures plan.Some? ==>
        UploadRequest.Right(plan.value, stores.docs, Hash(), stores.texts, !stores.Latest().Disconnect?)
      ensures stores.queue == old(stores.queue)
    {
      hide Step, Follow, Busy, UploadRequest.Fits, UploadRequest.Right, UploadRequest.Holds;
      plan := None;
      var found, raised := FindReusable();
      if raised { return None; }
      ghost var docs := stores.docs;
      if found == [] {
        plan := Some(Full);
      } else {
        plan := GetContent(found);
      }
      if plan.Some? {
        UploadRequest.FitsIsRight(plan.value, found, docs, Hash(), stores.texts, !stores.Latest().Disconnect?);
      }
    }

    ghost function Created(plan: Plan, d: nat): RequestPc {
      match plan
      case Full => EnqueueFirst(d)
      case ExtractOnly(_) => EnqueueExtract(d)
      case AnalyseOnly(_, text) => UpsertText(d, text)
    }

    lemma CreateCall(w: World, plan: Plan)
      requires w.uploads == stores.uploads && Ready()
      ensures var cfg, p, d := stores.cfg, Pos(CreateDoc(plan)), |w.docs|;
        && Writes(cfg, w, p, w.(docs := w.docs + [UploadRequest.NewDocument(cfg, file, req, plan)]), Lands)
        && forall o :: Step(cfg, w, p, o).proc ==
             Pos(if o.Raise? then Discard(if o.landed then Some(d) else None) else Created(plan, d))
    {
      hide Consumer.Step, ScanTask.Step, UploadTask.Step, ExtractTask.Step, Services.StepCancel, Services.StepCreate,
        Services.StepRetry, Services.StepRemove;
      hide UploadRequest.NewDocument;
    }

    method CreateDocumentForProcessing(plan: Plan) returns (d: nat, raised: bool)
      requires At(CreateDoc(plan))
      modifies stores
      ensures raised ==> MovedTo(Discard(None)) || MovedTo(Discard(Some(d)))
      ensures !raised ==> MovedTo(Created(plan, d))
      ensures stores.queue == old(stores.queue) && (raised ==> stores.SomeRaised())
    {
      hide Step, Writes, Follow, Busy, UploadRequest.NewDocument;
      d := |stores.docs|;
      CreateCall(stores.World(), plan);
      var o := stores.CreateDocument(UploadRequest.NewDocument(stores.cfg, file, req, plan));
      raised := o.Raise?;
      assert stores.Latest() == o;
    }

    method FullPipelineProcessing(d: nat) returns (failure: Option<Failure>)
      requires At(EnqueueFirst(d))
      modifies stores
      ensures MovedTo(After(failure, d))
      ensures Enqueued(failure.None?)
    {
      hide Consumer.Step, ScanTask.Step, UploadTask.Step, ExtractTask.Step, Services.StepCancel, Services.StepCreate,
        Services.StepRetry, Services.StepRemove;
      var args := Args(d, req, file.mime, file.provider);
      var o;
      if stores.cfg.scanning {
        o := stores.Enqueue(Scanner(args, ScanPc.Start, MAX_RETRIES));
      } else {
        o := stores.Enqueue(Uploader(args, UploadPc.Start, MAX_RETRIES));
      }
      failure := if o.Raise? then Some(Processing) else None;
    }

    method ExtractingOnlyProcessing(d: nat) returns (failure: Option<Failure>)
      requires At(EnqueueExtract(d))
      modifies stores
      ensures MovedTo(After(failure, d))
      ensures Enqueued(failure.None?)
    {
      hide Consumer.Step, ScanTask.Step, UploadTask.Step, ExtractTask.Step, Services.StepCancel, Services.StepCreate,
        Services.StepRetry, Services.StepRemove;
      var o := stores.Enqueue(Extractor(Args(d, req, file.mime, file.provider), ExtractPc.Start, MAX_RETRIES));
      failure := if o.Raise? then Some(Processing) else None;
    }

    lemma TextCall(w: World, d: nat, text: string)
      requires text != ""
      ensures var cfg, p := stores.cfg, Pos(UpsertText(d, text));
        && Writes(cfg, w, p, w.(texts := w.texts[d := text]), LandsUnlessDisconnected)
        && forall o :: Step(cfg, w, p, o).proc ==
             Pos(if o.Raise? then MarkFailed(d) else if o.Disconnect? then Degrade(d) else RequestPc.Unlink(d))
    {
      hide Consumer.Step, ScanTask.Step, UploadTask.Step, ExtractTask.Step, Services.StepCancel, Services.StepCreate,
        Services.StepRetry, Services.StepRemove;
    }

    method RejectEmptyText(d: nat, text: string) returns (failure: Option<Failure>)
      requires At(UpsertText(d, text)) && text == ""
      modifies stores
      ensures failure == Some(Processing) && MovedTo(MarkFailed(d))
      ensures Enqueued(failure.None?)
    {
      hide Consumer.Step, ScanTask.Step, UploadTask.Step, ExtractTask.Step, Services.StepCancel, Services.StepCreate,
        Services.StepRetry, Services.StepRemove;
      stores.Pass();
      failure := Some(Processing);
    }

    /** Copy the text and start the analysis; a lost connection degrades to extraction. */
    method AnalyzingOnlyProcessing(d: nat, text: string) returns (failure: Option<Failure>)
      requires At(UpsertText(d, text))
      modifies stores
      ensures MovedTo(After(failure, d))
      ensures Enqueued(failure.None?)
    {
      hide Step, Writes, Follow, Busy, Agrees;
      if text == "" {
        failure := RejectEmptyText(d, text);
        return;
      }
      TextCall(stores.World(), d, text);
      var o := stores.UpsertText(d, text, LandsUnlessDisconnected);
      if o.Raise? { return Some(Processing); }
      if o.Disconnect? {
        failure := DegradeToExtraction(d);
      } else {
        RemoveFile(d);
        failure := StartAnalysis(d);
      }
    }

    method DegradeToExtraction(d: nat) returns (failure: Option<Failure>)
      requires At(RequestPc.Degrade(d))
      modifies stores
      ensures MovedTo(After(failure, d))
      ensures Enqueued(failure.None?)
    {
      hide Consumer.Step, ScanTask.Step, UploadTask.Step, ExtractTask.Step, Services.StepCancel, Services.StepCreate,
        Services.StepRetry, Services.StepRemove;
      var o := stores.Degrade(d, req);
      if o.Raise? { return Some(Processing); }
      failure := ExtractingOnlyProcessing(d);
    }

    method RemoveFile(d: nat)
      requires At(RequestPc.Unlink(d))
      modifies stores
      ensures MovedTo(RequestPc.Find(d))
      ensures stores.queue == old(stores.queue)
    {
      hide Consumer.Step, ScanTask.Step, UploadTask.Step, ExtractTask.Step, Services.StepCancel, Services.StepCreate,
        Services.StepRetry, Services.StepRemove;
      var _ := stores.Unlink(req);
    }

    method StartAnalysis(d: nat) returns (failure: Option<Failure>)
      requires At(RequestPc.Find(d))
      modifies stores
      ensures MovedTo(After(failure, d))
      ensures Enqueued(failure.None?)
    {
      hide Step, Follow, Busy;
      var run := GetOrCreateAnalysis(d);
      if run.None? { return Some(AnalysisStart); }
      var raised := PublishToAnalysis(d, run.value);
      failure := if raised then Some(AnalysisStart) else None;
    }

    method PublishToAnalysis(d: nat, run: nat) returns (raised: bool)
      requires At(RequestPc.Publish(d, run))
      modifies stores
      ensures MovedTo(if raised then Discard(Some(d)) else RequestPc.Done)
      ensures Enqueued(!raised)
    {
      hide Consumer.Step, ScanTask.Step, UploadTask.Step, ExtractTask.Step, Services.StepCancel, Services.StepCreate,
        Services.StepRetry, Services.StepRemove;
      var o := stores.Enqueue(Handler(d, run, req, HandlerPc.Start, 0));
      hide Step, Follow, Busy;
      raised := o.Raise?;
      if raised { MarkDispatchFailed(d); }
    }

    method GetOrCreateAnalysis(d: nat) returns (run: Option<nat>)
      requires At(RequestPc.Find(d))
      modifies stores
      ensures MovedTo(if run.Some? then RequestPc.Publish(d, run.value) else Discard(Some(d)))
      ensures stores.queue == old(stores.queue)
    {
      hide Consumer.Step, ScanTask.Step, UploadTask.Step, ExtractTask.Step, Services.StepCancel, Services.StepCreate,
        Services.StepRetry, Services.StepRemove;
      var o := stores.Read();
      if o.Raise? { return None; }
      run := stores.analyses.Find(d, req);
      if run.None? {
        hide Step, Follow, Busy;
        run := CreateAnalysis(d);
      } else if !(run.value in stores.analyses.rows && stores.analyses.rows[run.value].provider == file.provider) {
        run := None;
      }
    }

    lemma InsertCall(w: World, d: nat)
      requires w.uploads == stores.uploads && Ready()
      ensures var cfg, p := stores.cfg, Pos(RequestPc.Insert(d));
        if w.analyses.Accepts(d, req, None) then
          && Writes(cfg, w, p, w.(analyses := w.analyses.Insert(d, req, file.provider, None)), Lands)
          && forall o :: Step(cfg, w, p, o).proc == Pos(if o.Raise? then Discard(Some(d)) else RequestPc.Publish(d, w.analyses.next))
        else
          && Reads(cfg, w, p)
          && forall o :: Step(cfg, w, p, o).proc == Pos(if o.Raise? then Discard(Some(d)) else RequestPc.FindAgain(d))
    {
      hide Consumer.Step, ScanTask.Step, UploadTask.Step, ExtractTask.Step, Services.StepCancel, Services.StepCreate,
        Services.StepRetry, Services.StepRemove;
      hide Table.Insert, Table.Accepts;
    }

    method CreateAnalysis(d: nat) returns (run: Option<nat>)
      requires At(RequestPc.Insert(d))
      modifies stores
      ensures MovedTo(if run.Some? then RequestPc.Publish(d, run.value) else Discard(Some(d)))
      ensures stores.queue == old(stores.queue)
    {
      hide Step, Writes, Reads, Follow, Busy, Table.Insert, Table.Accepts;
      InsertCall(stores.World(), d);
      if stores.analyses.Accepts(d, req, None) {
        run := Some(stores.analyses.next);
        var o := stores.InsertAnalysis(d, req, file.provider, None);
        if o.Raise? { run := None; }
      } else {
        run := None;
        var o := stores.Read();
        if !o.Raise? { run := LookAgain(d); }
      }
    }

    method LookAgain(d: nat) returns (run: Option<nat>)
      requires At(RequestPc.FindAgain(d))
      modifies stores
      ensures MovedTo(if run.Some? then RequestPc.Publish(d, run.value) else Discard(Some(d)))
      ensures stores.queue == old(stores.queue)
    {
      hide Consumer.Step, ScanTask.Step, UploadTask.Step, ExtractTask.Step, Services.StepCancel, Services.StepCreate,
        Services.StepRetry, Services.StepRemove;
      var o := stores.Read();
      if o.Raise? { return None; }
      run := stores.analyses.Find(d, req);
      if run.Some? && !(run.value in stores.analyses.rows && stores.analyses.rows[run.value].provider == file.provider) {
        run := None;
      }
    }

    lemma MarkCalls(w: World, d: nat)
      ensures var cfg, p, found := stores.cfg, Pos(RequestPc.MarkFind(d)), w.analyses.Find(d, req);
        && Reads(cfg, w, p)
        && forall o :: Step(cfg, w, p, o).proc == Pos(
             if !o.Raise? && found.Some? && found.value in w.analyses.rows && w.analyses.rows[found.value].status == Queued
             then RequestPc.MarkWrite(d) else Discard(Some(d)))
      ensures var cfg, p := stores.cfg, Pos(RequestPc.MarkWrite(d));
        && Writes(cfg, w, p, w.Update(d, req, Break(Transient)), Lands)
        && forall o :: Step(cfg, w, p, o).proc == Pos(Discard(Some(d)))
    {
      hide Consumer.Step, ScanTask.Step, UploadTask.Step, ExtractTask.Step, Services.StepCancel, Services.StepCreate,
        Services.StepRetry, Services.StepRemove;
      hide World.Update, Table.Update;
    }

    /** An analysis that could not be published is marked failed, if it is still queued; errors are only logged. */
    method MarkDispatchFailed(d: nat)
      requires At(RequestPc.MarkFind(d))
      modifies stores
      ensures MovedTo(Discard(Some(d)))
      ensures stores.queue == old(stores.queue)
    {
      hide Step, Writes, Reads, Follow, Busy, World.Update, Table.Update;
      MarkCalls(stores.World(), d);
      var o := stores.Read();
      var found := stores.analyses.Find(d, req);
      if !o.Raise? && found.Some? && found.value in stores.analyses.rows && stores.analyses.rows[found.value].status == Queued {
        MarkCalls(stores.World(), d);
        o := stores.UpdateAnalysis(d, req, Break(Transient));
      }
    }

    method TryMarkDocumentFailed(d: nat)
      requires At(MarkFailed(d))
      modifies stores
      ensures MovedTo(Discard(Some(d)))
      ensures stores.queue == old(stores.queue)
    {
      hide Consumer.Step, ScanTask.Step, UploadTask.Step, ExtractTask.Step, Services.StepCancel, Services.StepCreate,
        Services.StepRetry, Services.StepRemove;
      var _ := stores.Finish(d, Failed);
    }

    method RemoveFromTemp(ghost created: Option<nat>)
      requires At(Discard(created))
      modifies stores
      ensures MovedTo(RequestPc.Done)
      ensures stores.queue == old(stores.queue)
    {
      hide Consumer.Step, ScanTask.Step, UploadTask.Step, ExtractTask.Step, Services.StepCancel, Services.StepCreate,
        Services.StepRetry, Services.StepRemove;
      var _ := stores.Unlink(req);
    }

    method Process(plan: Plan, d: nat) returns (failure: Option<Failure>)
      requires At(Created(plan, d))
      modifies stores
      ensures MovedTo(After(failure, d))
      ensures Enqueued(failure.None?)
    {
      hide Step, Follow, Busy;
      match plan
      case Full => failure := FullPipelineProcessing(d);
      case ExtractOnly(_) => failure := ExtractingOnlyProcessing(d);
      case AnalyseOnly(_, text) => failure := AnalyzingOnlyProcessing(d, text);
    }

    /** The whole request: whatever fails, the document is marked failed when it was created, and the file removed. */
    method ProcessUpload() returns (ok: bool)
      requires At(Save)
      modifies stores
      ensures MovedTo(RequestPc.Done)
      ensures Enqueued(ok)
    {
      hide Step, Follow, Busy, Stores.Valid, Stores.World, Agrees, UploadRequest.Right;
      ok := false;
      var raised := SaveFile();
      if raised { RemoveFromTemp(None); return; }
      var plan := DetermineProcessingPath();
      if plan.None? { RemoveFromTemp(None); return; }
      var d;
      d, raised := CreateDocumentForProcessing(plan.value);
      if raised { RemoveFromTemp(stores.pos.rpc.created); return; }
      var failure := Process(plan.value, d);
      if failure == Some(Processing) { TryMarkDocumentFailed(d); }
      if failure.Some? { RemoveFromTemp(Some(d)); return; }
      ok := true;
    }
  }
}

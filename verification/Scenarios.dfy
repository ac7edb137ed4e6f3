/** Stretches of concrete runs: what the calls of one process do when nobody interferes. */
module Scenarios {
  import opened Types
  import opened AnalysisTable
  import opened Pipeline
  import opened BaseTask
  import opened Machine
  import opened Stores
  import opened Sessions
  import opened Rules
  import Validation
  import ScanTask
  import UploadTask
  import ExtractTask
  import UploadRequest
  import Services
  import Consumer

  const OK := Ok(0)
  const LOST := Raise(false, false)    // raised before it landed
  const LANDED := Raise(true, false)   // raised after it landed

  ghost predicate Reaches(cfg: Config, es: seq<Event>, s: System) {
    Feasible(cfg, EMPTY_SYSTEM, es) && Run(cfg, EMPTY_SYSTEM, es) == s
  }

  lemma Arrives(cfg: Config, es: seq<Event>, s: System, e: Event)
    requires Reaches(cfg, es, s) && Enabled(cfg, s, e) && !e.Act?
    ensures Reaches(cfg, es + [e], System(Arrive(cfg, s, e), s.procs + [Started(s, e)]))
  {
    hide Run, Feasible;
    RunSnoc(cfg, EMPTY_SYSTEM, es, e);
  }

  /** These calls take `p` from `w` to `w'` and `p'`, and it enqueues `sent`. */
  ghost predicate Plays(cfg: Config, w: World, p: Proc, calls: seq<Outcome>, w': World, p': Proc, sent: seq<Proc>) {
    Busy(cfg, w, p, calls) && Follow(cfg, w, p, calls) == (w', p', sent)
  }

  lemma PlayNothing(cfg: Config, w: World, p: Proc)
    ensures Plays(cfg, w, p, [], w, p, [])
  {
  }

  lemma PlayOne(cfg: Config, w: World, p: Proc, calls: seq<Outcome>, w1: World, p1: Proc, o: Outcome,
                calls': seq<Outcome>, sent': seq<Proc>)
    requires Plays(cfg, w, p, calls, w1, p1, []) && !p1.Ended()
    requires calls' == calls + [o] && sent' == Sending(Step(cfg, w1, p1, o).spawned)
    ensures var m := Step(cfg, w1, p1, o); Plays(cfg, w, p, calls', m.world, m.proc, sent')
  {
    hide Step;
    FollowOne(cfg, w, p, calls, o);
    BusyOne(cfg, w, p, calls, o);
    assert [] + sent' == sent';
  }

  /** A stretch of calls of process `i` continues the run. */
  lemma Played(cfg: Config, es: seq<Event>, s: System, i: nat, calls: seq<Outcome>, w': World, p': Proc, sent: seq<Proc>)
    requires Reaches(cfg, es, s) && i < |s.procs| && Plays(cfg, s.world, s.procs[i], calls, w', p', sent)
    ensures Reaches(cfg, es + Acts(i, calls), System(w', s.procs[i := p'] + sent))
  {
    hide Run, Feasible, Busy, Follow, Respects;
    CallsAreRun(cfg, s, i, calls, OnePerAnalysis);
    RunConcat(cfg, EMPTY_SYSTEM, es, Acts(i, calls));
  }

  // --- The upload request ---

  /** Bytes nobody uploaded before: save them, and look for duplicates. */
  lemma RequestSaves(cfg: Config, w: World, req: nat)
    requires w.docs == []
    ensures Plays(cfg, w, Request(req, Save), [OK, OK], w.(temps := w.temps[req := w.File(req).bytes]),
                  Request(req, CreateDoc(Full)), [])
  {
    hide ScanTask.Step, UploadTask.Step, ExtractTask.Step, Consumer.Step, Services.StepCancel, Services.StepCreate;
    hide Services.StepRetry, Services.StepRemove, UploadRequest.StepAnalyse, UploadRequest.NewDocument, Plays;
    var p, w1 := Request(req, Save), w.(temps := w.temps[req := w.File(req).bytes]);
    PlayNothing(cfg, w, p);
    PlayOne(cfg, w, p, [], w, p, OK, [OK], []);
    PlayOne(cfg, w, p, [OK], w1, Request(req, Candidates), OK, [OK, OK], []);
  }

  ghost function CreatedIn(cfg: Config, w: World, req: nat): World {
    w.(docs := [UploadRequest.NewDocument(cfg, w.File(req), req, Full)])
  }

  lemma Created(cfg: Config, w: World, req: nat)
    requires w.docs == []
    ensures w.(docs := w.docs + [UploadRequest.NewDocument(cfg, w.File(req), req, Full)]) == CreatedIn(cfg, w, req)
  {
  }

  /** Create the document, and enqueue its upload. */
  lemma RequestCreates(cfg: Config, w: World, req: nat)
    requires !cfg.scanning && w.docs == []
    ensures Plays(cfg, w, Request(req, CreateDoc(Full)), [OK, OK], CreatedIn(cfg, w, req), Request(req, RequestPc.Done),
                  [Uploader(Args(0, req, w.File(req).mime, w.File(req).provider), UploadPc.Start, MAX_RETRIES)])
  {
    hide ScanTask.Step, UploadTask.Step, ExtractTask.Step, Consumer.Step, Services.StepCancel, Services.StepCreate;
    hide Services.StepRetry, Services.StepRemove, UploadRequest.StepAnalyse, UploadRequest.NewDocument, Plays;
    hide CreatedIn;
    var p, file := Request(req, CreateDoc(Full)), w.File(req);
    Created(cfg, w, req);
    SameFile(cfg, w, req);
    PlayNothing(cfg, w, p);
    PlayOne(cfg, w, p, [], w, p, OK, [OK], []);
    PlayOne(cfg, w, p, [OK], CreatedIn(cfg, w, req), Request(req, EnqueueFirst(0)), OK, [OK, OK],
            [Uploader(Args(0, req, file.mime, file.provider), UploadPc.Start, MAX_RETRIES)]);
  }

  lemma SameFile(cfg: Config, w: World, req: nat)
    ensures CreatedIn(cfg, w, req).File(req) == w.File(req)
  {
  }

  /** The queue fails after the row was written ... */
  lemma RequestIsNotQueued(cfg: Config, w: World, req: nat)
    requires w.docs == []
    ensures Plays(cfg, w, Request(req, CreateDoc(Full)), [OK, LOST], CreatedIn(cfg, w, req), Request(req, MarkFailed(0)), [])
  {
    hide ScanTask.Step, UploadTask.Step, ExtractTask.Step, Consumer.Step, Services.StepCancel, Services.StepCreate;
    hide Services.StepRetry, Services.StepRemove, UploadRequest.StepAnalyse, UploadRequest.NewDocument, Plays;
    hide CreatedIn;
    var p := Request(req, CreateDoc(Full));
    Created(cfg, w, req);
    PlayNothing(cfg, w, p);
    PlayOne(cfg, w, p, [], w, p, OK, [OK], []);
    PlayOne(cfg, w, p, [OK], CreatedIn(cfg, w, req), Request(req, EnqueueFirst(0)), LOST, [OK, LOST], []);
  }

  /** ... and then the database. */
  lemma RequestIsNotMarked(cfg: Config, w: World, req: nat, d: nat)
    ensures Plays(cfg, w, Request(req, MarkFailed(d)), [LOST, OK], w.LoseDoc(d).Unlink(req), Request(req, RequestPc.Done), [])
  {
    hide ScanTask.Step, UploadTask.Step, ExtractTask.Step, Consumer.Step, Services.StepCancel, Services.StepCreate;
    hide Services.StepRetry, Services.StepRemove, UploadRequest.StepAnalyse, UploadRequest.NewDocument, Plays;
    var p := Request(req, MarkFailed(d));
    PlayNothing(cfg, w, p);
    PlayOne(cfg, w, p, [], w, p, LOST, [LOST], []);
    PlayOne(cfg, w, p, [LOST], w.LoseDoc(d), Request(req, Discard(Some(d))), OK, [LOST, OK], []);
  }

  /** The row is written, but the request does not learn its number. */
  lemma RequestForgetsDocument(cfg: Config, w: World, req: nat)
    requires w.docs == []
    ensures Plays(cfg, w, Request(req, CreateDoc(Full)), [LANDED, OK], CreatedIn(cfg, w, req).LoseDoc(0).Unlink(req),
                  Request(req, RequestPc.Done), [])
  {
    hide ScanTask.Step, UploadTask.Step, ExtractTask.Step, Consumer.Step, Services.StepCancel, Services.StepCreate;
    hide Services.StepRetry, Services.StepRemove, UploadRequest.StepAnalyse, UploadRequest.NewDocument, Plays;
    hide CreatedIn;
    var p, w1 := Request(req, CreateDoc(Full)), CreatedIn(cfg, w, req);
    Created(cfg, w, req);
    PlayNothing(cfg, w, p);
    PlayOne(cfg, w, p, [], w, p, LANDED, [LANDED], []);
    PlayOne(cfg, w, p, [LANDED], w1.LoseDoc(0), Request(req, Discard(Some(0))), OK, [LANDED, OK], []);
  }

  // --- The upload task ---

  ghost function PutIn(w: World, args: Args): World
    requires args.req in w.temps
  {
    var w1 := w.SetStatus(args.doc, Uploading);
    w1.(objects := w1.objects[args.req := w1.temps[args.req]])
  }

  lemma UploadStarts(cfg: Config, w: World, args: Args, left: nat)
    requires args.doc < |w.docs| && w.docs[args.doc].status != Cancelled && args.req in w.temps
    ensures Plays(cfg, w, Uploader(args, UploadPc.Start, left), [OK, OK], w, Uploader(args, WriteUploading, left), [])
  {
    hide UploadRequest.Step, ScanTask.Step, ExtractTask.Step, Consumer.Step, Services.StepCancel, Services.StepCreate;
    hide Services.StepRetry, Services.StepRemove, Plays;
    var p := Uploader(args, UploadPc.Start, left);
    PlayNothing(cfg, w, p);
    PlayOne(cfg, w, p, [], w, p, OK, [OK], []);
    PlayOne(cfg, w, p, [OK], w, Uploader(args, UploadPc.CheckPath, left), OK, [OK, OK], []);
  }

  lemma UploadPuts(cfg: Config, w: World, args: Args, left: nat)
    requires args.doc < |w.docs| && args.req in w.temps && args.req !in w.objects
    ensures Plays(cfg, w, Uploader(args, WriteUploading, left), [OK, OK, OK], PutIn(w, args),
                  Uploader(args, WriteUploaded, left), [])
  {
    hide UploadRequest.Step, ScanTask.Step, ExtractTask.Step, Consumer.Step, Services.StepCancel, Services.StepCreate;
    hide Services.StepRetry, Services.StepRemove, Plays;
    var p, w1 := Uploader(args, WriteUploading, left), w.SetStatus(args.doc, Uploading);
    PlayNothing(cfg, w, p);
    PlayOne(cfg, w, p, [], w, p, OK, [OK], []);
    PlayOne(cfg, w, p, [OK], w1, Uploader(args, Head, left), OK, [OK, OK], []);
    PlayOne(cfg, w, p, [OK, OK], w1, Uploader(args, Put, left), OK, [OK, OK, OK], []);
  }

  lemma UploadEnds(cfg: Config, w: World, args: Args, left: nat)
    ensures Plays(cfg, w, Uploader(args, WriteUploaded, left), [OK, OK], UploadTask.SetUploaded(w, args.doc, args.req),
                  Uploader(args, UploadPc.Done, left), [Extractor(args, ExtractPc.Start, MAX_RETRIES)])
  {
    hide UploadRequest.Step, ScanTask.Step, ExtractTask.Step, Consumer.Step, Services.StepCancel, Services.StepCreate;
    hide Services.StepRetry, Services.StepRemove, UploadTask.SetUploaded, Plays;
    var p, w1 := Uploader(args, WriteUploaded, left), UploadTask.SetUploaded(w, args.doc, args.req);
    PlayNothing(cfg, w, p);
    PlayOne(cfg, w, p, [], w, p, OK, [OK], []);
    PlayOne(cfg, w, p, [OK], w1, Uploader(args, UploadPc.Enqueue, left), OK, [OK, OK],
            [Extractor(args, ExtractPc.Start, MAX_RETRIES)]);
  }

  /** The status goes back to `uploading`, the storage does not answer, and the retry finds the file gone. */
  lemma UploadFindsNothing(cfg: Config, w: World, args: Args, left: nat)
    requires args.doc < |w.docs| && args.req !in w.temps && left > 0
    ensures Plays(cfg, w, Uploader(args, WriteUploading, left), [OK, LOST, OK, OK], w.SetStatus(args.doc, Uploading),
                  Uploader(args, UploadPc.WriteCancelled, left - 1), [])
  {
    hide UploadRequest.Step, ScanTask.Step, ExtractTask.Step, Consumer.Step, Services.StepCancel, Services.StepCreate;
    hide Services.StepRetry, Services.StepRemove, Plays;
    var p, w1 := Uploader(args, WriteUploading, left), w.SetStatus(args.doc, Uploading);
    PlayNothing(cfg, w, p);
    PlayOne(cfg, w, p, [], w, p, OK, [OK], []);
    PlayOne(cfg, w, p, [OK], w1, Uploader(args, Head, left), LOST, [OK, LOST], []);
    PlayOne(cfg, w, p, [OK, LOST], w1, Uploader(args, UploadPc.Start, left - 1), OK, [OK, LOST, OK], []);
    PlayOne(cfg, w, p, [OK, LOST, OK], w1, Uploader(args, UploadPc.CheckPath, left - 1), OK, [OK, LOST, OK, OK], []);
  }

  lemma UploadCancels(cfg: Config, w: World, args: Args, left: nat)
    ensures Plays(cfg, w, Uploader(args, UploadPc.WriteCancelled, left), [OK], w.Finish(args.doc, Cancelled),
                  Uploader(args, UploadPc.Done, left), [])
  {
    hide UploadRequest.Step, ScanTask.Step, ExtractTask.Step, Consumer.Step, Services.StepCancel, Services.StepCreate;
    hide Services.StepRetry, Services.StepRemove, Plays;
    var p := Uploader(args, UploadPc.WriteCancelled, left);
    PlayNothing(cfg, w, p);
    PlayOne(cfg, w, p, [], w, p, OK, [OK], []);
  }

  // --- The extraction task ---

  ghost function TextIn(w: World, args: Args, text: string): World {
    w.(texts := w.texts[args.doc := text]).Finish(args.doc, DocumentStatus.Extracted).Unlink(args.req)
  }

  lemma ExtractStarts(cfg: Config, w: World, args: Args, left: nat)
    requires args.doc < |w.docs| && w.docs[args.doc].status == Uploaded && args.req in w.temps
    ensures Plays(cfg, w, Extractor(args, ExtractPc.Start, left), [OK, OK], w,
                  Extractor(args, WriteExtracting(w.docs[args.doc].key), left), [])
  {
    hide UploadRequest.Step, ScanTask.Step, UploadTask.Step, Consumer.Step, Services.StepCancel, Services.StepCreate;
    hide Services.StepRetry, Services.StepRemove, ExtractTask.StepDispatch, ExtractTask.StepFailure, Plays;
    var p := Extractor(args, ExtractPc.Start, left);
    PlayNothing(cfg, w, p);
    PlayOne(cfg, w, p, [], w, p, OK, [OK], []);
    PlayOne(cfg, w, p, [OK], w, Extractor(args, ExtractPc.CheckPath(w.docs[args.doc].key), left), OK, [OK, OK], []);
  }

  lemma ExtractLooks(cfg: Config, w: World, args: Args, left: nat)
    requires args.doc < |w.docs| && w.docs[args.doc].status == Uploaded
    ensures Plays(cfg, w, Extractor(args, ExtractPc.Start, left), [OK], w,
                  Extractor(args, ExtractPc.CheckPath(w.docs[args.doc].key), left), [])
  {
    hide UploadRequest.Step, ScanTask.Step, UploadTask.Step, Consumer.Step, Services.StepCancel, Services.StepCreate;
    hide Services.StepRetry, Services.StepRemove, ExtractTask.StepDispatch, ExtractTask.StepFailure, Plays;
    var p := Extractor(args, ExtractPc.Start, left);
    PlayNothing(cfg, w, p);
    PlayOne(cfg, w, p, [], w, p, OK, [OK], []);
  }

  /** The file is gone, is restored by a download that raises, and the retry drops out on the status. */
  lemma ExtractRestoresAndDrops(cfg: Config, w: World, args: Args, key: nat, left: nat)
    requires args.doc < |w.docs| && w.docs[args.doc].status == Uploading && args.req !in w.temps && key in w.objects
    requires left > 0
    ensures Plays(cfg, w, Extractor(args, ExtractPc.CheckPath(Some(key)), left), [OK, LANDED, OK],
                  w.(temps := w.temps[args.req := w.objects[key]]), Extractor(args, ExtractPc.Done, left - 1), [])
  {
    hide UploadRequest.Step, ScanTask.Step, UploadTask.Step, Consumer.Step, Services.StepCancel, Services.StepCreate;
    hide Services.StepRetry, Services.StepRemove, ExtractTask.StepDispatch, ExtractTask.StepFailure, Plays;
    var p := Extractor(args, ExtractPc.CheckPath(Some(key)), left);
    var w1 := w.(temps := w.temps[args.req := w.objects[key]]);
    PlayNothing(cfg, w, p);
    PlayOne(cfg, w, p, [], w, p, OK, [OK], []);
    PlayOne(cfg, w, p, [OK], w, Extractor(args, Restore(Some(key), false), left), LANDED, [OK, LANDED], []);
    PlayOne(cfg, w, p, [OK, LANDED], w1, Extractor(args, ExtractPc.Start, left - 1), OK, [OK, LANDED, OK], []);
  }

  lemma ExtractReads(cfg: Config, w: World, args: Args, key: Option<nat>, left: nat, text: string)
    requires args.doc < |w.docs| && args.req in w.temps && cfg.extract(w.temps[args.req], args.mime) == Some(text)
    ensures Plays(cfg, w, Extractor(args, WriteExtracting(key), left), [OK, OK],
                  w.SetStatus(args.doc, DocumentStatus.Extracting), Extractor(args, Upsert(text), left), [])
  {
    hide UploadRequest.Step, ScanTask.Step, UploadTask.Step, Consumer.Step, Services.StepCancel, Services.StepCreate;
    hide Services.StepRetry, Services.StepRemove, ExtractTask.StepDispatch, ExtractTask.StepFailure, Plays;
    var p, w1 := Extractor(args, WriteExtracting(key), left), w.SetStatus(args.doc, DocumentStatus.Extracting);
    PlayNothing(cfg, w, p);
    PlayOne(cfg, w, p, [], w, p, OK, [OK], []);
    PlayOne(cfg, w, p, [OK], w1, Extractor(args, Extract(key, false), left), OK, [OK, OK], []);
  }

  lemma ExtractStores(cfg: Config, w: World, args: Args, left: nat, text: string)
    ensures Plays(cfg, w, Extractor(args, Upsert(text), left), [OK, OK, OK], TextIn(w, args, text),
                  Extractor(args, ExtractPc.Find, left), [])
  {
    hide UploadRequest.Step, ScanTask.Step, UploadTask.Step, Consumer.Step, Services.StepCancel, Services.StepCreate;
    hide Services.StepRetry, Services.StepRemove, ExtractTask.StepDispatch, ExtractTask.StepFailure, Plays;
    hide World.Finish;
    var p, w1 := Extractor(args, Upsert(text), left), w.(texts := w.texts[args.doc := text]);
    PlayNothing(cfg, w, p);
    PlayOne(cfg, w, p, [], w, p, OK, [OK], []);
    PlayOne(cfg, w, p, [OK], w1, Extractor(args, WriteExtracted, left), OK, [OK, OK], []);
    PlayOne(cfg, w, p, [OK, OK], w1.Finish(args.doc, DocumentStatus.Extracted), Extractor(args, ExtractPc.Unlink, left), OK,
            [OK, OK, OK], []);
  }

  lemma ExtractInserts(cfg: Config, w: World, args: Args, left: nat)
    requires w.analyses.Accepts(args.doc, args.req, None)
    ensures Plays(cfg, w, Extractor(args, ExtractPc.Find, left), [OK, OK],
                  w.(analyses := w.analyses.Insert(args.doc, args.req, args.provider, None)),
                  Extractor(args, ExtractPc.Publish(w.analyses.next), left), [])
  {
    hide UploadRequest.Step, ScanTask.Step, UploadTask.Step, Consumer.Step, Services.StepCancel, Services.StepCreate;
    hide Services.StepRetry, Services.StepRemove, ExtractTask.StepFailure, Plays, Table.Insert;
    var p := Extractor(args, ExtractPc.Find, left);
    PlayNothing(cfg, w, p);
    PlayOne(cfg, w, p, [], w, p, OK, [OK], []);
    PlayOne(cfg, w, p, [OK], w, Extractor(args, ExtractPc.Insert, left), OK, [OK, OK], []);
  }

  lemma ExtractPublishes(cfg: Config, w: World, args: Args, run: nat, left: nat)
    ensures Plays(cfg, w, Extractor(args, ExtractPc.Publish(run), left), [OK], w, Extractor(args, ExtractPc.Done, left),
                  [Handler(args.doc, run, args.req, HandlerPc.Start, 0)])
  {
    hide UploadRequest.Step, ScanTask.Step, UploadTask.Step, Consumer.Step, Services.StepCancel, Services.StepCreate;
    hide Services.StepRetry, Services.StepRemove, ExtractTask.StepFailure, Plays;
    var p := Extractor(args, ExtractPc.Publish(run), left);
    PlayNothing(cfg, w, p);
    PlayOne(cfg, w, p, [], w, p, OK, [OK], [Handler(args.doc, run, args.req, HandlerPc.Start, 0)]);
  }

  /** The publish raises for the last time; the failure callback looks at the analysis `found`. */
  lemma ExtractGivesUp(cfg: Config, w: World, args: Args, run: nat)
    requires args.doc < |w.docs| && w.docs[args.doc].status == Extracted
    ensures Plays(cfg, w, Extractor(args, ExtractPc.Publish(run), 0), [LOST, OK], w, Extractor(args, ExtractPc.MarkFind, 0), [])
  {
    hide UploadRequest.Step, ScanTask.Step, UploadTask.Step, Consumer.Step, Services.StepCancel, Services.StepCreate;
    hide Services.StepRetry, Services.StepRemove, Plays;
    var p := Extractor(args, ExtractPc.Publish(run), 0);
    PlayNothing(cfg, w, p);
    PlayOne(cfg, w, p, [], w, p, LOST, [LOST], []);
    PlayOne(cfg, w, p, [LOST], w, Extractor(args, ReadExtracted, 0), OK, [LOST, OK], []);
  }

  /** The publish raises an error that is not retried. */
  lemma ExtractFails(cfg: Config, w: World, args: Args, run: nat, left: nat)
    requires args.doc < |w.docs| && w.docs[args.doc].status == Extracted
    ensures Plays(cfg, w, Extractor(args, ExtractPc.Publish(run), left), [Raise(false, true), OK], w,
                  Extractor(args, ExtractPc.MarkFind, left), [])
  {
    hide UploadRequest.Step, ScanTask.Step, UploadTask.Step, Consumer.Step, Services.StepCancel, Services.StepCreate;
    hide Services.StepRetry, Services.StepRemove, Plays;
    var p := Extractor(args, ExtractPc.Publish(run), left);
    PlayNothing(cfg, w, p);
    PlayOne(cfg, w, p, [], w, p, Raise(false, true), [Raise(false, true)], []);
    PlayOne(cfg, w, p, [Raise(false, true)], w, Extractor(args, ReadExtracted, left), OK,
            [Raise(false, true), OK], []);
  }

  lemma ExtractMarks(cfg: Config, w: World, args: Args, a: nat, left: nat)
    requires w.analyses.Find(args.doc, args.req) == Some(a) && a in w.analyses.rows && w.analyses.rows[a].status == Queued
    ensures Plays(cfg, w, Extractor(args, ExtractPc.MarkFind, left), [OK, OK, OK],
                  w.Update(args.doc, args.req, Break(Transient)).Unlink(args.req), Extractor(args, ExtractPc.Done, left), [])
  {
    hide UploadRequest.Step, ScanTask.Step, UploadTask.Step, Consumer.Step, Services.StepCancel, Services.StepCreate;
    hide Services.StepRetry, Services.StepRemove, ExtractTask.StepDispatch, Plays, Table.Update;
    var p := Extractor(args, ExtractPc.MarkFind, left);
    PlayNothing(cfg, w, p);
    PlayOne(cfg, w, p, [], w, p, OK, [OK], []);
    PlayOne(cfg, w, p, [OK], w, Extractor(args, ExtractPc.MarkWrite, left), OK, [OK, OK], []);
    PlayOne(cfg, w, p, [OK, OK], w.Update(args.doc, args.req, Break(Transient)),
            Extractor(args, ExtractPc.Tail(Tail.Unlink), left), OK, [OK, OK, OK], []);
  }

  /** An analysis that is not queued any more is left alone. */
  lemma ExtractSkips(cfg: Config, w: World, args: Args, a: nat, left: nat)
    requires w.analyses.Find(args.doc, args.req) == Some(a) && a in w.analyses.rows && w.analyses.rows[a].status != Queued
    ensures Plays(cfg, w, Extractor(args, ExtractPc.MarkFind, left), [OK, OK], w.Unlink(args.req),
                  Extractor(args, ExtractPc.Done, left), [])
  {
    hide UploadRequest.Step, ScanTask.Step, UploadTask.Step, Consumer.Step, Services.StepCancel, Services.StepCreate;
    hide Services.StepRetry, Services.StepRemove, ExtractTask.StepDispatch, Plays;
    var p := Extractor(args, ExtractPc.MarkFind, left);
    PlayNothing(cfg, w, p);
    PlayOne(cfg, w, p, [], w, p, OK, [OK], []);
    PlayOne(cfg, w, p, [OK], w, Extractor(args, ExtractPc.Tail(Tail.Unlink), left), OK, [OK, OK], []);
  }

  /** A second delivery finds the document extracted and goes on to the analysis. */
  lemma ExtractAgain(cfg: Config, w: World, args: Args, left: nat)
    requires args.doc < |w.docs| && w.docs[args.doc].status == Extracted
    ensures Plays(cfg, w, Extractor(args, ExtractPc.Start, left), [OK, OK], w.Unlink(args.req),
                  Extractor(args, ExtractPc.Find, left), [])
  {
    hide UploadRequest.Step, ScanTask.Step, UploadTask.Step, Consumer.Step, Services.StepCancel, Services.StepCreate;
    hide Services.StepRetry, Services.StepRemove, ExtractTask.StepDispatch, ExtractTask.StepFailure, Plays;
    var p := Extractor(args, ExtractPc.Start, left);
    PlayNothing(cfg, w, p);
    PlayOne(cfg, w, p, [], w, p, OK, [OK], []);
    PlayOne(cfg, w, p, [OK], w, Extractor(args, ExtractPc.Unlink, left), OK, [OK, OK], []);
  }

  // --- Messages ---

  lemma HandlerReads(cfg: Config, w: World, d: nat, a: nat, req: nat, n: nat)
    requires a in w.analyses.rows && !w.analyses.rows[a].Terminal() && Consumer.Matches(w.analyses.rows[a], d, req)
    requires d in w.texts && w.texts[d] != ""
    ensures Plays(cfg, w, Handler(d, a, req, HandlerPc.Start, n), [OK, OK, OK], w,
                  Handler(d, a, req, WriteAnalyzing(w.texts[d], 0), n), [])
  {
    hide UploadRequest.Step, ScanTask.Step, UploadTask.Step, ExtractTask.Step, Services.StepCancel, Services.StepCreate;
    hide Services.StepRetry, Services.StepRemove, Plays;
    var p := Handler(d, a, req, HandlerPc.Start, n);
    PlayNothing(cfg, w, p);
    PlayOne(cfg, w, p, [], w, p, OK, [OK], []);
    PlayOne(cfg, w, p, [OK], w, Handler(d, a, req, HandlerPc.ReadText, n), OK, [OK, OK], []);
    PlayOne(cfg, w, p, [OK, OK], w, Handler(d, a, req, ReadPrompt(w.texts[d]), n), OK, [OK, OK, OK], []);
  }

  lemma HandlerBegins(cfg: Config, w: World, d: nat, a: nat, req: nat, text: string, n: nat)
    ensures Plays(cfg, w, Handler(d, a, req, WriteAnalyzing(text, 0), n), [OK], Consumer.Updated(w, d, a, req, Begin),
                  Handler(d, a, req, Ask(text, 0), n), [])
  {
    hide UploadRequest.Step, ScanTask.Step, UploadTask.Step, ExtractTask.Step, Services.StepCancel, Services.StepCreate;
    hide Services.StepRetry, Services.StepRemove, Plays, Consumer.Updated;
    var p := Handler(d, a, req, WriteAnalyzing(text, 0), n);
    PlayNothing(cfg, w, p);
    PlayOne(cfg, w, p, [], w, p, OK, [OK], []);
  }

  lemma HandlerSucceeds(cfg: Config, w: World, d: nat, a: nat, req: nat, text: string, n: nat)
    ensures Plays(cfg, w, Handler(d, a, req, Ask(text, 0), n), [OK, OK],
                  Consumer.Updated(w, d, a, req, Change.Finish(Report(text, 0))), Handler(d, a, req, HandlerPc.Done, n), [])
  {
    hide UploadRequest.Step, ScanTask.Step, UploadTask.Step, ExtractTask.Step, Services.StepCancel, Services.StepCreate;
    hide Services.StepRetry, Services.StepRemove, Plays, Consumer.Updated;
    var p := Handler(d, a, req, Ask(text, 0), n);
    PlayNothing(cfg, w, p);
    PlayOne(cfg, w, p, [], w, p, OK, [OK], []);
    PlayOne(cfg, w, p, [OK], w, Handler(d, a, req, WriteSuccess(Report(text, 0)), n), OK, [OK, OK], []);
  }

  lemma HandlerIsRefused(cfg: Config, w: World, d: nat, a: nat, req: nat, text: string, n: nat)
    ensures Plays(cfg, w, Handler(d, a, req, Ask(text, 0), n), [Refuse(false), OK],
                  Consumer.Updated(w, d, a, req, Break(Permanent)), Handler(d, a, req, HandlerPc.Done, n), [])
  {
    hide UploadRequest.Step, ScanTask.Step, UploadTask.Step, ExtractTask.Step, Services.StepCancel, Services.StepCreate;
    hide Services.StepRetry, Services.StepRemove, Plays, Consumer.Updated;
    var p := Handler(d, a, req, Ask(text, 0), n);
    PlayNothing(cfg, w, p);
    PlayOne(cfg, w, p, [], w, p, Refuse(false), [Refuse(false)], []);
    PlayOne(cfg, w, p, [Refuse(false)], w, Handler(d, a, req, WriteRefused, n), OK, [Refuse(false), OK], []);
  }

  /** The provider fails, the message comes back, and its analysis is gone. */
  lemma HandlerComesBack(cfg: Config, w: World, d: nat, a: nat, req: nat, text: string)
    requires a !in w.analyses.rows
    ensures Plays(cfg, w, Handler(d, a, req, Ask(text, 0), 0), [LOST, OK], w, Handler(d, a, req, HandlerPc.Done, 1), [])
  {
    hide UploadRequest.Step, ScanTask.Step, UploadTask.Step, ExtractTask.Step, Services.StepCancel, Services.StepCreate;
    hide Services.StepRetry, Services.StepRemove, Plays;
    var p := Handler(d, a, req, Ask(text, 0), 0);
    PlayNothing(cfg, w, p);
    PlayOne(cfg, w, p, [], w, p, LOST, [LOST], []);
    PlayOne(cfg, w, p, [LOST], w, Handler(d, a, req, HandlerPc.Start, 1), OK, [LOST, OK], []);
  }

  // --- Requests on documents and analyses ---

  lemma CancelRuns(cfg: Config, w: World, d: nat, name: nat)
    requires d < |w.docs| && w.docs[d].status != Cancelled && w.docs[d].temp == Some(name)
    ensures Plays(cfg, w, Canceller(d, CancelPc.Start), [OK, OK, OK], w.Finish(d, Cancelled).Unlink(name),
                  Canceller(d, CancelPc.Done), [])
  {
    hide UploadRequest.Step, ScanTask.Step, UploadTask.Step, ExtractTask.Step, Consumer.Step, Services.StepCreate;
    hide Services.StepRetry, Services.StepRemove, Plays;
    var p := Canceller(d, CancelPc.Start);
    PlayNothing(cfg, w, p);
    PlayOne(cfg, w, p, [], w, p, OK, [OK], []);
    PlayOne(cfg, w, p, [OK], w, Canceller(d, CancelPc.Write(Some(name))), OK, [OK, OK], []);
    PlayOne(cfg, w, p, [OK, OK], w.Finish(d, Cancelled), Canceller(d, CancelPc.Unlink(name)), OK, [OK, OK, OK], []);
  }

  /** The insert lands although it raises. */
  lemma CreateLands(cfg: Config, w: World, d: nat, req: nat, provider: Provider)
    requires d < |w.docs| && w.docs[d].status == Extracted && d in w.texts && w.texts[d] != ""
    requires w.analyses.Accepts(d, req, None)
    ensures Plays(cfg, w, Creator(d, req, provider, ApiPc.Start), [OK, OK, LANDED],
                  w.(analyses := w.analyses.Insert(d, req, provider, None)).LoseRun(d, req),
                  Creator(d, req, provider, ApiPc.Done), [])
  {
    hide UploadRequest.Step, ScanTask.Step, UploadTask.Step, ExtractTask.Step, Consumer.Step, Services.StepCancel;
    hide Services.StepRetry, Services.StepRemove, Plays, Table.Insert;
    var p := Creator(d, req, provider, ApiPc.Start);
    PlayNothing(cfg, w, p);
    PlayOne(cfg, w, p, [], w, p, OK, [OK], []);
    PlayOne(cfg, w, p, [OK], w, Creator(d, req, provider, ApiPc.ReadText), OK, [OK, OK], []);
    PlayOne(cfg, w, p, [OK, OK], w, Creator(d, req, provider, ApiPc.Insert(provider)), LANDED, [OK, OK, LANDED], []);
  }

  lemma RetryChecks(cfg: Config, w: World, d: nat, req: nat, parent: nat)
    requires d < |w.docs| && w.docs[d].status == Extracted && d in w.texts && w.texts[d] != ""
    requires parent in w.analyses.rows && w.analyses.rows[parent].doc == d && w.analyses.rows[parent].Retryable()
    requires w.analyses.FindChild(parent).None?
    ensures Plays(cfg, w, Retrier(d, req, parent, ApiPc.Start), [OK, OK, OK, OK], w,
                  Retrier(d, req, parent, ApiPc.Insert(w.analyses.rows[parent].provider)), [])
  {
    hide UploadRequest.Step, ScanTask.Step, UploadTask.Step, ExtractTask.Step, Consumer.Step, Services.StepCancel;
    hide Services.StepCreate, Services.StepRemove, Services.StepInsert, Services.StepDispatch, Plays;
    var p, provider := Retrier(d, req, parent, ApiPc.Start), w.analyses.rows[parent].provider;
    PlayNothing(cfg, w, p);
    PlayOne(cfg, w, p, [], w, p, OK, [OK], []);
    PlayOne(cfg, w, p, [OK], w, Retrier(d, req, parent, ApiPc.ReadText), OK, [OK, OK], []);
    PlayOne(cfg, w, p, [OK, OK], w, Retrier(d, req, parent, ApiPc.Get), OK, [OK, OK, OK], []);
    PlayOne(cfg, w, p, [OK, OK, OK], w, Retrier(d, req, parent, ApiPc.FindChild(provider)), OK, [OK, OK, OK, OK], []);
  }

  lemma RetryInserts(cfg: Config, w: World, d: nat, req: nat, parent: nat, provider: Provider)
    requires w.analyses.Accepts(d, req, Some(parent))
    ensures Plays(cfg, w, Retrier(d, req, parent, ApiPc.Insert(provider)), [OK],
                  w.(analyses := w.analyses.Insert(d, req, provider, Some(parent))),
                  Retrier(d, req, parent, ApiPc.Publish(w.analyses.next)), [])
  {
    hide UploadRequest.Step, ScanTask.Step, UploadTask.Step, ExtractTask.Step, Consumer.Step, Services.StepCancel;
    hide Services.StepCreate, Services.StepRemove, Plays, Table.Insert;
    var p := Retrier(d, req, parent, ApiPc.Insert(provider));
    PlayNothing(cfg, w, p);
    PlayOne(cfg, w, p, [], w, p, OK, [OK], []);
  }

  /** The message cannot be published; the analysis is marked failed. */
  lemma RetryIsNotPublished(cfg: Config, w: World, d: nat, req: nat, parent: nat, a: nat)
    requires w.analyses.Find(d, req) == Some(a) && a in w.analyses.rows && w.analyses.rows[a].status == Queued
    ensures Plays(cfg, w, Retrier(d, req, parent, ApiPc.Publish(a)), [LOST, OK, OK],
                  w.Update(d, req, Break(Transient)), Retrier(d, req, parent, ApiPc.Done), [])
  {
    hide UploadRequest.Step, ScanTask.Step, UploadTask.Step, ExtractTask.Step, Consumer.Step, Services.StepCancel;
    hide Services.StepCreate, Services.StepRemove, Plays, Table.Update;
    var p := Retrier(d, req, parent, ApiPc.Publish(a));
    PlayNothing(cfg, w, p);
    PlayOne(cfg, w, p, [], w, p, LOST, [LOST], []);
    PlayOne(cfg, w, p, [LOST], w, Retrier(d, req, parent, ApiPc.MarkFind(a)), OK, [LOST, OK], []);
    PlayOne(cfg, w, p, [LOST, OK], w, Retrier(d, req, parent, ApiPc.MarkWrite(a)), OK, [LOST, OK, OK], []);
  }

  lemma RemovalChecks(cfg: Config, w: World, d: nat, a: nat)
    requires d < |w.docs| && a in w.analyses.rows && w.analyses.rows[a].doc == d && w.analyses.rows[a].Terminal()
    requires w.analyses.FindChild(a).None?
    ensures Plays(cfg, w, Remover(d, a, RemovePc.Start), [OK, OK, OK], w, Remover(d, a, RemovePc.Delete), [])
  {
    hide UploadRequest.Step, ScanTask.Step, UploadTask.Step, ExtractTask.Step, Consumer.Step, Services.StepCancel;
    hide Services.StepCreate, Services.StepRetry, Plays;
    var p := Remover(d, a, RemovePc.Start);
    PlayNothing(cfg, w, p);
    PlayOne(cfg, w, p, [], w, p, OK, [OK], []);
    PlayOne(cfg, w, p, [OK], w, Remover(d, a, RemovePc.Get), OK, [OK, OK], []);
    PlayOne(cfg, w, p, [OK, OK], w, Remover(d, a, RemovePc.FindChild(true)), OK, [OK, OK, OK], []);
  }

  lemma RemovalDeletes(cfg: Config, w: World, d: nat, a: nat)
    ensures Plays(cfg, w, Remover(d, a, RemovePc.Delete), [OK], w.(analyses := w.analyses.Delete(a)),
                  Remover(d, a, RemovePc.Done), [])
  {
    hide UploadRequest.Step, ScanTask.Step, UploadTask.Step, ExtractTask.Step, Consumer.Step, Services.StepCancel;
    hide Services.StepCreate, Services.StepRetry, Plays, Table.Delete;
    var p := Remover(d, a, RemovePc.Delete);
    PlayNothing(cfg, w, p);
    PlayOne(cfg, w, p, [], w, p, OK, [OK], []);
  }
}
